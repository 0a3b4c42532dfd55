/** What the parser promises, stated against an independent reading of its
    grammar: the token list the lexer would produce, cut into productions. */
module ParsingFacts {
  import opened Wrappers
  import opened Lexing
  import opened LexingFacts
  import opened Parsing

  // ---------------------------------------------------------------------------
  // The grammar on a token list
  // ---------------------------------------------------------------------------

  /** The productions of a token list whose first token is pull number
      `q + 1`: a label is one identifier; an expression is an operator followed
      by up to two registers, and only the last expression may run short of
      operands; any other token where a production starts is refused. */
  function Group(ts: seq<Token>, q: nat): Option<seq<Production>>
    decreases |ts|
  {
    if ts == [] then Some([])
    else if ts[0].Ident? then
      match Group(ts[1..], q + 1)
      case None => None
      case Some(ps) => Some([Label(ts[0], q + 1)] + ps)
    else if ts[0].Op? then
      if |ts| == 1 then Some([Expr(NewExpression.(operation := ts[0]))])
      else if !ts[1].Register? then None
      else if |ts| == 2 then Some([Expr(NewExpression.(operation := ts[0], right := ts[1]))])
      else if !ts[2].Register? then None
      else
        match Group(ts[3..], q + 3)
        case None => None
        case Some(ps) => Some([Expr(Expression(ts[0], ts[1], Some(ts[2])))] + ps)
    else None
  }

  /** The tokens a production was built from. */
  function Units(p: Production): seq<Token> {
    match p
    case Label(t, _) => [t]
    case Expr(e) =>
      [e.operation]
      + (if e.right == Token.EOF then [] else [e.right])
      + (if e.left.Some? then [e.left.value] else [])
    case EOF => []
  }

  /** The tokens of a sequence of productions, in order. */
  function Flatten(ps: seq<Production>): seq<Token>
    decreases |ps|
  {
    if ps == [] then [] else Units(ps[0]) + Flatten(ps[1..])
  }

  /** A production `parse` can build: a label holds an identifier; an
      expression holds an operator, a register or the placeholder as its first
      operand, and a second register only after a first one. */
  predicate WellFormed(p: Production) {
    match p
    case Label(t, _) => t.Ident?
    case Expr(e) =>
      && e.operation.Op?
      && (e.right.Register? || e.right == Token.EOF)
      && (e.left.Some? ==> e.left.value.Register? && e.right.Register?)
    case EOF => false
  }

  /** An expression missing its second operand. */
  predicate Short(p: Production) {
    p.Expr? && p.expr.left.None?
  }

  /** Well-formed productions, where only the last one may be short. */
  predicate Shaped(ps: seq<Production>) {
    forall i :: 0 <= i < |ps| ==> WellFormed(ps[i]) && (Short(ps[i]) ==> i == |ps| - 1)
  }

  /** Each label records the pull number of its identifier, counting from `q`. */
  predicate Numbered(ps: seq<Production>, q: nat)
    decreases |ps|
  {
    ps == [] || ((ps[0].Label? ==> ps[0].position == q + 1) && Numbered(ps[1..], q + |Units(ps[0])|))
  }

  /** Grouping an operator and two registers in front of `ts`. */
  lemma GroupFull(t: Token, t1: Token, t2: Token, ts: seq<Token>, q: nat)
    requires t.Op? && t1.Register? && t2.Register?
    ensures Group([t] + ([t1] + ([t2] + ts)), q) ==
      match Group(ts, q + 3)
      case None => None
      case Some(ps) => Some([Expr(Expression(t, t1, Some(t2)))] + ps)
  {
    var all := [t] + ([t1] + ([t2] + ts));
    assert all[0] == t && all[1] == t1 && all[2] == t2 && all[3..] == ts;
  }

  /** Grouping an operator at the end, alone or with one register. */
  lemma GroupShort(t: Token, t1: Token, q: nat)
    requires t.Op?
    ensures Group([t], q) == Some([Expr(NewExpression.(operation := t))])
    ensures t1.Register? ==> Group([t, t1], q) == Some([Expr(NewExpression.(operation := t, right := t1))])
  {
  }

  /** Grouping an identifier in front of `ts`. */
  lemma GroupLabel(t: Token, ts: seq<Token>, q: nat)
    requires t.Ident?
    ensures Group([t] + ts, q) ==
      match Group(ts, q + 1)
      case None => None
      case Some(ps) => Some([Label(t, q + 1)] + ps)
  {
    assert ([t] + ts)[0] == t && ([t] + ts)[1..] == ts;
  }

  lemma FlattenCons(p: Production, ps: seq<Production>)
    ensures Flatten([p] + ps) == Units(p) + Flatten(ps)
  {
    assert ([p] + ps)[1..] == ps;
  }

  // ---------------------------------------------------------------------------
  // Group and Flatten are inverse
  // ---------------------------------------------------------------------------

  /** Grouping loses and invents no token, builds only well-formed
      productions with at most the last one short, and numbers the labels. */
  lemma {:induction false} GroupFlattens(ts: seq<Token>, q: nat)
    requires Group(ts, q).Some?
    ensures var ps := Group(ts, q).value;
      Flatten(ps) == ts && Shaped(ps) && Numbered(ps, q)
    decreases |ts|
  {
    var ps := Group(ts, q).value;
    if ts == [] {
    } else if ts[0].Ident? {
      var rest := Group(ts[1..], q + 1).value;
      GroupFlattens(ts[1..], q + 1);
      FlattenCons(ps[0], rest);
      assert ps == [ps[0]] + rest;
      assert ps[1..] == rest;
      forall i | 0 <= i < |ps|
        ensures WellFormed(ps[i]) && (Short(ps[i]) ==> i == |ps| - 1)
      {
        if i > 0 { assert ps[i] == rest[i - 1]; }
      }
    } else if |ts| == 1 {
    } else if |ts| == 2 {
      assert Units(ps[0]) == [ts[0], ts[1]];
    } else {
      var rest := Group(ts[3..], q + 3).value;
      GroupFlattens(ts[3..], q + 3);
      FlattenCons(ps[0], rest);
      assert Units(ps[0]) == [ts[0], ts[1], ts[2]];
      assert ps == [ps[0]] + rest;
      assert ps[1..] == rest;
      assert ts == [ts[0], ts[1], ts[2]] + ts[3..];
      forall i | 0 <= i < |ps|
        ensures WellFormed(ps[i]) && (Short(ps[i]) ==> i == |ps| - 1)
      {
        if i > 0 { assert ps[i] == rest[i - 1]; }
      }
    }
  }

  /** Conversely, the tokens of any shaped and numbered productions group back
      into exactly those productions. */
  lemma {:induction false} FlattenGroups(ps: seq<Production>, q: nat)
    requires Shaped(ps) && Numbered(ps, q)
    ensures Group(Flatten(ps), q) == Some(ps)
    decreases |ps|
  {
    if ps != [] {
      var p, rest := ps[0], ps[1..];
      assert ps == [p] + rest;
      FlattenCons(p, rest);
      assert Shaped(rest) by {
        forall i | 0 <= i < |rest|
          ensures WellFormed(rest[i]) && (Short(rest[i]) ==> i == |rest| - 1)
        {
          assert rest[i] == ps[i + 1];
        }
      }
      var ts := Flatten(ps);
      assert WellFormed(p);
      match p
      case Label(t, _) =>
        FlattenGroups(rest, q + 1);
        assert ts[1..] == Flatten(rest);
      case Expr(e) =>
        if e.left.Some? {
          FlattenGroups(rest, q + 3);
          assert Units(p) == [e.operation, e.right, e.left.value];
          assert ts[3..] == Flatten(rest);
        } else {
          assert Short(ps[0]);
          assert rest == [] && Flatten(rest) == [];
          if e.right == Token.EOF {
            assert ts == [e.operation];
            assert p == Expr(NewExpression.(operation := e.operation));
          } else {
            assert ts == [e.operation, e.right];
            assert p == Expr(NewExpression.(operation := e.operation, right := e.right));
          }
          assert ps == [p];
        }
    }
  }

  /** Each label in `ps` sits at a pull number in `(q, q + |ts|]` whose token
      in `ts` is the label's identifier. */
  predicate LabelsIndexed(ps: seq<Production>, ts: seq<Token>, q: nat) {
    forall i :: 0 <= i < |ps| && ps[i].Label? ==>
      q < ps[i].position <= q + |ts| && ts[ps[i].position - q - 1] == ps[i].token
  }

  /** A label's position is the pull number of its own identifier. */
  lemma {:induction false} GroupLabels(ts: seq<Token>, q: nat)
    requires Group(ts, q).Some?
    ensures LabelsIndexed(Group(ts, q).value, ts, q)
    decreases |ts|
  {
    hide Group, LabelsIndexed;
    var ps := Group(ts, q).value;
    GroupShape(ts, q);
    if ts != [] && (ts[0].Ident? || |ts| > 2) {
      var k := if ts[0].Ident? then 1 else 3;
      var rest := Group(ts[k..], q + k).value;
      GroupLabels(ts[k..], q + k);
      assert ps == [ps[0]] + rest;
      LabelsShift(ts, q, k, ps[0], rest);
    } else {
      NoLabels(ps, ts, q);
    }
  }

  /** Productions without labels satisfy `LabelsIndexed` trivially. */
  lemma NoLabels(ps: seq<Production>, ts: seq<Token>, q: nat)
    requires forall i :: 0 <= i < |ps| ==> ps[i].Expr?
    ensures LabelsIndexed(ps, ts, q)
  {
  }

  /** The labels of `rest`, numbered from `q + k` over `ts[k..]`, keep their
      meaning in front of the `k` tokens of a first production. */
  lemma LabelsShift(ts: seq<Token>, q: nat, k: nat, p: Production, rest: seq<Production>)
    requires 0 < k <= |ts|
    requires p.Label? ==> p == Label(ts[0], q + 1)
    requires LabelsIndexed(rest, ts[k..], q + k)
    ensures LabelsIndexed([p] + rest, ts, q)
  {
    var ps := [p] + rest;
    forall i | 0 <= i < |ps| && ps[i].Label?
      ensures q < ps[i].position <= q + |ts| && ts[ps[i].position - q - 1] == ps[i].token
    {
      if i > 0 {
        assert ps[i] == rest[i - 1];
        assert ts[k..][ps[i].position - (q + k) - 1] == ts[ps[i].position - q - 1];
      }
    }
  }

  /** The first production `Group` builds, and the rest. */
  lemma GroupShape(ts: seq<Token>, q: nat)
    requires Group(ts, q).Some?
    ensures var ps := Group(ts, q).value;
      if ts == [] || (!ts[0].Ident? && |ts| <= 2) then
        |ps| <= 1 && forall i :: 0 <= i < |ps| ==> ps[i].Expr?
      else
        var k := if ts[0].Ident? then 1 else 3;
        && k <= |ts| && Group(ts[k..], q + k).Some? && |ps| > 0
        && ps[1..] == Group(ts[k..], q + k).value
        && (ps[0].Label? ==> ps[0] == Label(ts[0], q + 1))
  {
  }

  // ---------------------------------------------------------------------------
  // parse agrees with Group on the lexer's token list
  // ---------------------------------------------------------------------------

  /** The result of grouping the tokens from cursor `c` on, when they lex. */
  function Grouped(s: string, st: ParserState): Result<Option<seq<Production>>, LexError>
    requires st.cursor.pos <= |s|
  {
    match Tokens(s, st.cursor)
    case Err(e) => Err(e)
    case Ok(ts) => Ok(Group(ts, st.position))
  }

  /** One round of `parse`, by the kind of the token the lexer returns. */
  lemma ParseStep(s: string, st: ParserState, acc: seq<Production>)
    requires st.cursor.pos <= |s|
    ensures var r := ScanToken(s, st.cursor);
      var next := ParserState(r.next, st.position + 1);
      var out := ParseFrom(s, st, acc);
      match r.token
      case Err(e) => out.productions == Err(Lexical(e))
      case Ok(t) =>
        if t == Token.EOF then out.productions == Ok(acc)
        else if t.Ident? then out == ParseFrom(s, next, acc + [Label(t, next.position)])
        else if t.Op? then
          var b := BuildExpression(s, next, t);
          match b.production
          case Err(e) => out.productions == Err(e)
          case Ok(prod) => out == ParseFrom(s, b.next, acc + [prod])
        else out.productions == Err(IncorrectToken(t))
  {
    hide ScanToken;
  }

  /** One call of `handle_expression`, by the kinds of the two tokens it pulls. */
  lemma BuildSteps(s: string, st: ParserState, op: Token)
    requires st.cursor.pos <= |s|
    ensures var r1 := ScanToken(s, st.cursor);
      var b := BuildExpression(s, st, op);
      match r1.token
      case Err(e) => b.production == Err(Lexical(e))
      case Ok(t1) =>
        if t1 == Token.EOF then
          b == Built(Ok(Expr(NewExpression.(operation := op))), ParserState(r1.next, st.position + 2))
        else if !t1.Register? then b.production == Err(ExpectedRegister(t1))
        else
          var r2 := ScanToken(s, r1.next);
          match r2.token
          case Err(e) => b.production == Err(Lexical(e))
          case Ok(t2) =>
            if t2 == Token.EOF then
              b == Built(Ok(Expr(NewExpression.(operation := op, right := t1))), ParserState(r2.next, st.position + 2))
            else if !t2.Register? then b.production == Err(ExpectedRegister(t2))
            else b == Built(Ok(Expr(Expression(op, t1, Some(t2)))), ParserState(r2.next, st.position + 2))
  {
    hide ScanToken;
    var r1 := ScanToken(s, st.cursor);
    if r1.token == Ok(Token.EOF) {
      EofIsStable(s, st.cursor);
    }
  }

  /** Parsing from any state succeeds exactly when the remaining tokens lex and
      group, and then appends their productions. When the tokens do not lex,
      the error is the lexer's first error exactly when the tokens scanned
      before it group, and a grammatical error otherwise. */
  lemma {:induction false} ParseIsGrouping(s: string, st: ParserState, acc: seq<Production>)
    requires st.cursor.pos <= |s|
    ensures var r := ParseFrom(s, st, acc).productions;
      match Grouped(s, st)
      case Err(e) =>
        if Group(TokensBefore(s, st.cursor), st.position).Some? then r == Err(Lexical(e))
        else r.Err? && !r.error.Lexical?
      case Ok(None) => r.Err? && !r.error.Lexical?
      case Ok(Some(ps)) => r == Ok(acc + ps)
    decreases |s| - st.cursor.pos
  {
    hide ScanToken, ParseFrom, Pull, BuildExpression;
    var c, q := st.cursor, st.position;
    var r := ScanToken(s, c);
    match r.token
    case Err(e) =>
      ParseStep(s, st, acc);
      assert Tokens(s, c) == Err(e);
    case Ok(t) =>
      if t == Token.EOF {
        ParseStep(s, st, acc);
        assert Tokens(s, c) == Ok([]) && Group([], q) == Some([]);
        assert acc + [] == acc;
      } else if t.Ident? {
        ParseLabel(s, st, acc, t);
      } else if t.Op? {
        ParseOperator(s, st, acc, t);
      } else {
        ParseStep(s, st, acc);
        TokensAfter(s, c, t, r.next);
      }
  }

  /** `ParseIsGrouping` when the first token is the identifier `t`. */
  lemma {:induction false} ParseLabel(s: string, st: ParserState, acc: seq<Production>, t: Token)
    requires st.cursor.pos <= |s|
    requires ScanToken(s, st.cursor).token == Ok(t) && t.Ident?
    ensures var r := ParseFrom(s, st, acc).productions;
      match Grouped(s, st)
      case Err(e) =>
        if Group(TokensBefore(s, st.cursor), st.position).Some? then r == Err(Lexical(e))
        else r.Err? && !r.error.Lexical?
      case Ok(None) => r.Err? && !r.error.Lexical?
      case Ok(Some(ps)) => r == Ok(acc + ps)
    decreases |s| - st.cursor.pos, 0
  {
    hide ScanToken, ParseFrom, Pull, BuildExpression;
    var c, q := st.cursor, st.position;
    var c1 := ScanToken(s, c).next;
    ParseStep(s, st, acc);
    TokensAfter(s, c, t, c1);
    ParseIsGrouping(s, ParserState(c1, q + 1), acc + [Label(t, q + 1)]);
    if Tokens(s, c1).Ok? {
      var ts := Tokens(s, c1).value;
      GroupLabel(t, ts, q);
      match Group(ts, q + 1)
      case None =>
      case Some(ps) => assert acc + [Label(t, q + 1)] + ps == acc + ([Label(t, q + 1)] + ps);
    }
  }

  /** `ParseIsGrouping` when the first token is the operator `t`. */
  lemma {:induction false} ParseOperator(s: string, st: ParserState, acc: seq<Production>, t: Token)
    requires st.cursor.pos <= |s|
    requires ScanToken(s, st.cursor).token == Ok(t) && t.Op?
    ensures var r := ParseFrom(s, st, acc).productions;
      match Grouped(s, st)
      case Err(e) =>
        if Group(TokensBefore(s, st.cursor), st.position).Some? then r == Err(Lexical(e))
        else r.Err? && !r.error.Lexical?
      case Ok(None) => r.Err? && !r.error.Lexical?
      case Ok(Some(ps)) => r == Ok(acc + ps)
    decreases |s| - st.cursor.pos, 2
  {
    hide ScanToken, ParseFrom, Pull, BuildExpression;
    var c, q := st.cursor, st.position;
    var c1 := ScanToken(s, c).next;
    ParseStep(s, st, acc);
    BuildSteps(s, ParserState(c1, q + 1), t);
    TokensAfter(s, c, t, c1);
    var r1 := ScanToken(s, c1);
    if r1.token.Ok? {
      var t1 := r1.token.value;
      var c2 := r1.next;
      if t1 == Token.EOF {
        EofIsStable(s, c1);
        assert Tokens(s, c1) == Ok([]);
        assert [t] + [] == [t];
        GroupShort(t, t1, q);
        ParseStep(s, ParserState(c2, q + 3), acc + [Expr(NewExpression.(operation := t))]);
      } else if !t1.Register? {
        TokensAfter(s, c1, t1, c2);
        if Tokens(s, c2).Ok? {
          var ts := Tokens(s, c2).value;
          assert ([t] + ([t1] + ts))[1] == t1;
        }
      } else {
        ParseTwoOperands(s, st, acc, t, t1);
      }
    }
  }

  /** `ParseIsGrouping` when the operator `t` is followed by the register `t1`. */
  lemma {:induction false} ParseTwoOperands(s: string, st: ParserState, acc: seq<Production>, t: Token, t1: Token)
    requires st.cursor.pos <= |s|
    requires ScanToken(s, st.cursor).token == Ok(t) && t.Op?
    requires ScanToken(s, ScanToken(s, st.cursor).next).token == Ok(t1) && t1.Register?
    ensures var r := ParseFrom(s, st, acc).productions;
      match Grouped(s, st)
      case Err(e) =>
        if Group(TokensBefore(s, st.cursor), st.position).Some? then r == Err(Lexical(e))
        else r.Err? && !r.error.Lexical?
      case Ok(None) => r.Err? && !r.error.Lexical?
      case Ok(Some(ps)) => r == Ok(acc + ps)
    decreases |s| - st.cursor.pos, 1
  {
    hide ScanToken, ParseFrom, Pull, BuildExpression;
    var c1 := ScanToken(s, st.cursor).next;
    var c2 := ScanToken(s, c1).next;
    var r2 := ScanToken(s, c2);
    match r2.token
    case Err(e) =>
      ParseStep(s, st, acc);
      BuildSteps(s, ParserState(c1, st.position + 1), t);
      TokensAfter(s, st.cursor, t, c1);
      TokensAfter(s, c1, t1, c2);
    case Ok(t2) =>
      if t2 == Token.EOF {
        ParseTwoTokens(s, st, acc, t, c1, t1, c2);
      } else {
        ParseThreeTokens(s, st, acc, t, c1, t1, c2, t2, r2.next);
      }
  }

  /** The tokens from the cursor on are exactly the operator `t` and the
      register `t1`. */
  lemma ParseTwoTokens(s: string, st: ParserState, acc: seq<Production>,
                       t: Token, c1: Cursor, t1: Token, c2: Cursor)
    requires st.cursor.pos <= |s|
    requires ScanToken(s, st.cursor) == Scanned(Ok(t), c1) && t.Op?
    requires c1.pos <= |s| && ScanToken(s, c1) == Scanned(Ok(t1), c2) && t1.Register?
    requires c2.pos <= |s| && ScanToken(s, c2).token == Ok(Token.EOF)
    ensures Grouped(s, st) == Ok(Some([Expr(NewExpression.(operation := t, right := t1))]))
    ensures ParseFrom(s, st, acc).productions == Ok(acc + [Expr(NewExpression.(operation := t, right := t1))])
  {
    hide ScanToken;
    var q := st.position;
    ParseStep(s, st, acc);
    BuildSteps(s, ParserState(c1, q + 1), t);
    TokensAfter(s, st.cursor, t, c1);
    TokensAfter(s, c1, t1, c2);
    var c3 := ScanToken(s, c2).next;
    EofIsStable(s, c2);
    assert Tokens(s, c2) == Ok([]);
    assert [t] + ([t1] + []) == [t, t1];
    GroupShort(t, t1, q);
    ParseStep(s, ParserState(c3, q + 3), acc + [Expr(NewExpression.(operation := t, right := t1))]);
  }

  /** What `parse` and the lexer do with an operator, a register and one more
      token. */
  lemma ThreeSteps(s: string, st: ParserState, acc: seq<Production>,
                   t: Token, c1: Cursor, t1: Token, c2: Cursor, t2: Token, c3: Cursor)
    requires st.cursor.pos <= |s|
    requires ScanToken(s, st.cursor) == Scanned(Ok(t), c1) && t.Op?
    requires c1.pos <= |s| && ScanToken(s, c1) == Scanned(Ok(t1), c2) && t1.Register?
    requires c2.pos <= |s| && ScanToken(s, c2) == Scanned(Ok(t2), c3) && t2 != Token.EOF
    ensures c3.pos <= |s|
    ensures ParseFrom(s, st, acc).productions ==
      if t2.Register? then ParseFrom(s, ParserState(c3, st.position + 3), acc + [Expr(Expression(t, t1, Some(t2)))]).productions
      else Err(ExpectedRegister(t2))
    ensures Tokens(s, st.cursor) ==
      match Tokens(s, c3)
      case Ok(ts) => Ok([t] + ([t1] + ([t2] + ts)))
      case Err(e) => Err(e)
    ensures TokensBefore(s, st.cursor) == [t] + ([t1] + ([t2] + TokensBefore(s, c3)))
  {
    hide ScanToken;
    ParseStep(s, st, acc);
    BuildSteps(s, ParserState(c1, st.position + 1), t);
    TokensAfter(s, st.cursor, t, c1);
    TokensAfter(s, c1, t1, c2);
    TokensAfter(s, c2, t2, c3);
  }

  /** Grouping the tokens from the cursor on when they start with the operator
      `t`, the register `t1` and the token `t2`. */
  lemma GroupedThree(s: string, st: ParserState,
                     t: Token, c1: Cursor, t1: Token, c2: Cursor, t2: Token, c3: Cursor)
    requires st.cursor.pos <= |s|
    requires ScanToken(s, st.cursor) == Scanned(Ok(t), c1) && t.Op?
    requires c1.pos <= |s| && ScanToken(s, c1) == Scanned(Ok(t1), c2) && t1.Register?
    requires c2.pos <= |s| && ScanToken(s, c2) == Scanned(Ok(t2), c3) && t2 != Token.EOF
    ensures c3.pos <= |s|
    ensures Grouped(s, st) ==
      match Grouped(s, ParserState(c3, st.position + 3))
      case Err(e) => Err(e)
      case Ok(None) => Ok(None)
      case Ok(Some(ps)) => if t2.Register? then Ok(Some([Expr(Expression(t, t1, Some(t2)))] + ps)) else Ok(None)
    ensures !t2.Register? && Grouped(s, st).Ok? ==> Grouped(s, st) == Ok(None)
    ensures Group(TokensBefore(s, st.cursor), st.position).Some? <==>
      t2.Register? && Group(TokensBefore(s, c3), st.position + 3).Some?
  {
    hide ScanToken, ParseFrom, Pull, BuildExpression;
    var q := st.position;
    ThreeSteps(s, st, [], t, c1, t1, c2, t2, c3);
    var before := [t] + ([t1] + ([t2] + TokensBefore(s, c3)));
    if t2.Register? {
      GroupFull(t, t1, t2, TokensBefore(s, c3), q);
    } else {
      assert before[0] == t && before[1] == t1 && before[2] == t2 && |before| > 2;
      assert Group(before, q) == None;
    }
    match Tokens(s, c3)
    case Err(err) =>
    case Ok(ts) =>
      var all := [t] + ([t1] + ([t2] + ts));
      assert all[0] == t && all[1] == t1 && all[2] == t2 && all[3..] == ts && |all| > 2;
      if t2.Register? {
        GroupFull(t, t1, t2, ts, q);
      } else {
        assert Group(all, q) == None;
      }
  }

  /** The tokens from the cursor on are the operator `t`, the register `t1`,
      the token `t2` and then those from `c3`. */
  lemma {:induction false} ParseThreeTokens(s: string, st: ParserState, acc: seq<Production>,
                                            t: Token, c1: Cursor, t1: Token, c2: Cursor, t2: Token, c3: Cursor)
    requires st.cursor.pos <= |s|
    requires ScanToken(s, st.cursor) == Scanned(Ok(t), c1) && t.Op?
    requires c1.pos <= |s| && ScanToken(s, c1) == Scanned(Ok(t1), c2) && t1.Register?
    requires c2.pos <= |s| && ScanToken(s, c2) == Scanned(Ok(t2), c3) && t2 != Token.EOF
    ensures var r := ParseFrom(s, st, acc).productions;
      match Grouped(s, st)
      case Err(e) =>
        if Group(TokensBefore(s, st.cursor), st.position).Some? then r == Err(Lexical(e))
        else r.Err? && !r.error.Lexical?
      case Ok(None) => r.Err? && !r.error.Lexical?
      case Ok(Some(ps)) => r == Ok(acc + ps)
    decreases |s| - st.cursor.pos, 0
  {
    hide ScanToken, ParseFrom, Pull, BuildExpression, Tokens, TokensBefore, Group;
    var q := st.position;
    var e := Expr(Expression(t, t1, Some(t2)));
    ThreeSteps(s, st, acc, t, c1, t1, c2, t2, c3);
    GroupedThree(s, st, t, c1, t1, c2, t2, c3);
    if t2.Register? {
      ParseIsGrouping(s, ParserState(c3, q + 3), acc + [e]);
      match Grouped(s, ParserState(c3, q + 3))
      case Err(_) =>
      case Ok(None) =>
      case Ok(Some(ps)) => assert acc + [e] + ps == acc + ([e] + ps);
    }
  }

  // ---------------------------------------------------------------------------
  // Consequences for a whole program
  // ---------------------------------------------------------------------------

  /** Whatever `parse` returns is the lexer's token list cut into shaped
      productions whose labels carry the pull number (one-based) of their
      identifier. */
  lemma ParseSound(code: string)
    requires Parse(code).Ok?
    ensures var ps := Parse(code).value;
      && Tokens(code, Initial.cursor) == Ok(Flatten(ps))
      && Shaped(ps)
      && (forall i :: 0 <= i < |ps| && ps[i].Label? ==>
            1 <= ps[i].position <= |Flatten(ps)| && Flatten(ps)[ps[i].position - 1] == ps[i].token)
  {
    ParseIsGrouping(code, Initial, []);
    var ts := Tokens(code, Initial.cursor).value;
    assert [] + Group(ts, 0).value == Group(ts, 0).value;
    GroupFlattens(ts, 0);
    GroupLabels(ts, 0);
  }

  /** Conversely, a program whose tokens are those of some shaped, numbered
      productions parses to exactly them. */
  lemma ParseComplete(code: string, ps: seq<Production>)
    requires Tokens(code, Initial.cursor) == Ok(Flatten(ps))
    requires Shaped(ps) && Numbered(ps, 0)
    ensures Parse(code) == Ok(ps)
  {
    ParseIsGrouping(code, Initial, []);
    FlattenGroups(ps, 0);
    assert [] + ps == ps;
  }

  /** `parse` reports a lexical error exactly as the lexer's first one, and
      every program that does not lex is refused. */
  lemma ParseLexicalErrors(code: string)
    ensures Parse(code).Err? && Parse(code).error.Lexical? ==> Tokens(code, Initial.cursor) == Err(Parse(code).error.error)
    ensures Tokens(code, Initial.cursor).Err? ==> Parse(code).Err?
  {
    ParseIsGrouping(code, Initial, []);
  }

  // ---------------------------------------------------------------------------
  // One call of handle_expression
  // ---------------------------------------------------------------------------

  /** An expression keeps its operator and is well formed; it is short only
      when the input is used up, and a refused operand is a real token that is
      not a register. */
  lemma BuildExpressionResult(s: string, st: ParserState, op: Token)
    requires st.cursor.pos <= |s| && op.Op?
    ensures var b := BuildExpression(s, st, op);
      && (b.production.Ok? ==>
            && b.next.position == st.position + 2
            && b.production.value.Expr?
            && b.production.value.expr.operation == op
            && WellFormed(b.production.value)
            && (Short(b.production.value) ==> ScanToken(s, b.next.cursor) == Scanned(Ok(Token.EOF), b.next.cursor)))
      && (b.production.Err? && b.production.error.ExpectedRegister? ==>
            b.production.error.found != Token.EOF && !b.production.error.found.Register?)
  {
    var p1 := Pull(s, st);
    var r1 := ScanToken(s, st.cursor);
    if r1.token == Ok(Token.EOF) {
      EofIsStable(s, st.cursor);
      EofIsStable(s, r1.next);
    } else {
      var r2 := ScanToken(s, r1.next);
      if r2.token == Ok(Token.EOF) {
        EofIsStable(s, r1.next);
      }
    }
  }

  /** Every call of `_next_token` counts, and once the input is used up every
      further call yields `None` without moving the cursor. */
  lemma PullAtEnd(s: string, st: ParserState)
    requires st.cursor.pos == |s|
    ensures Pull(s, st) == Pulled(Ok(None), ParserState(st.cursor, st.position + 1))
  {
    EofIsStable(s, st.cursor);
  }
}
