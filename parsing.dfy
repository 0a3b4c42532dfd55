/** The parser of the assembly front end (src/parser.rs).

    As for the lexer, pure functions specify what each parser routine does to
    a `ParserState` (the owned lexer's cursor and the pull counter `position`),
    and the class `Parser` is proved to follow them. */
module Parsing {
  import opened Wrappers
  import opened Lexing

  /** An instruction: the operator token, the destination register `right`
      and the optional second register `left`. */
  datatype Expression = Expression(operation: Token, right: Token, left: Option<Token>)

  /** `Expression::new`: both token slots hold the `EOF` placeholder. */
  const NewExpression: Expression := Expression(Token.EOF, Token.EOF, None)

  /** A parsed unit. The `EOF` variant exists in the source but `parse` never
      builds it. */
  datatype Production =
    | Label(token: Token, position: nat)
    | Expr(expr: Expression)
    | EOF

  /** The panics of the parser, without their message text. */
  datatype ParseError =
    | Lexical(error: LexError)      // a panic inside the lexer
    | IncorrectToken(found: Token)  // a register or immediate where a production starts
    | ExpectedRegister(found: Token) // a non-register where an operand stands

  /** The lexer's cursor and the number of tokens pulled so far. */
  datatype ParserState = ParserState(cursor: Cursor, position: nat)

  /** No production from index `n` on is the `EOF` production. */
  predicate NoEofFrom(ps: seq<Production>, n: nat) {
    forall i :: n <= i < |ps| ==> !ps[i].EOF?
  }

  /** What `_next_token` returns, and the state it leaves. */
  datatype Pulled = Pulled(token: Result<Option<Token>, LexError>, next: ParserState)

  /** What `handle_expression` returns, and the state it leaves. */
  datatype Built = Built(production: Result<Production, ParseError>, next: ParserState)

  /** What `parse` returns, and the state it leaves. */
  datatype Parsed = Parsed(productions: Result<seq<Production>, ParseError>, next: ParserState)

  /** `_next_token`: count the pull, then lex one token; `EOF` becomes `None`. */
  function Pull(s: string, st: ParserState): (p: Pulled)
    requires st.cursor.pos <= |s|
    ensures st.cursor.pos <= p.next.cursor.pos <= |s|
    ensures p.next.position == st.position + 1
    ensures p.token.Ok? && p.token.value.Some? ==> p.token.value.value != Token.EOF
    ensures p.token == Ok(None) <==> ScanToken(s, st.cursor).token == Ok(Token.EOF)
  {
    var r := ScanToken(s, st.cursor);
    var next := ParserState(r.next, st.position + 1);
    match r.token
    case Err(e) => Pulled(Err(e), next)
    case Ok(t) => Pulled(Ok(if t == Token.EOF then None else Some(t)), next)
  }

  /** `handle_expression`: a fresh expression takes the operator, then up to two
      pulled tokens, each of which must be a register; a pull that finds the
      end of input leaves its slot as it was. */
  function BuildExpression(s: string, st: ParserState, op: Token): (b: Built)
    requires st.cursor.pos <= |s|
    ensures st.cursor.pos <= b.next.cursor.pos <= |s|
    ensures b.production.Ok? ==> b.production.value.Expr?
  {
    var expr := NewExpression.(operation := op);
    var p1 := Pull(s, st);
    match p1.token
    case Err(e) => Built(Err(Lexical(e)), p1.next)
    case Ok(t1) =>
      if t1.Some? && !t1.value.Register? then Built(Err(ExpectedRegister(t1.value)), p1.next)
      else
        var expr := if t1.Some? then expr.(right := t1.value) else expr;
        var p2 := Pull(s, p1.next);
        match p2.token
        case Err(e) => Built(Err(Lexical(e)), p2.next)
        case Ok(t2) =>
          if t2.Some? && !t2.value.Register? then Built(Err(ExpectedRegister(t2.value)), p2.next)
          else
            var expr := if t2.Some? then expr.(left := t2) else expr;
            Built(Ok(Expr(expr)), p2.next)
  }

  /** `parse`, continued from state `st` with `acc` already produced: pull a
      token; stop at `None`; a label records the pull count, an operator starts
      an expression, anything else is an error. */
  function ParseFrom(s: string, st: ParserState, acc: seq<Production>): (r: Parsed)
    requires st.cursor.pos <= |s|
    ensures st.cursor.pos <= r.next.cursor.pos <= |s| && st.position < r.next.position
    ensures r.productions.Ok? ==>
      && acc <= r.productions.value
      && NoEofFrom(r.productions.value, |acc|)
    ensures r.productions.Ok? ==> ScanToken(s, r.next.cursor).token == Ok(Token.EOF)
    decreases |s| - st.cursor.pos
  {
    var p := Pull(s, st);
    match p.token
    case Err(e) => Parsed(Err(Lexical(e)), p.next)
    case Ok(None) => Parsed(Ok(acc), p.next)
    case Ok(Some(t)) =>
      if t.Ident? then ParseFrom(s, p.next, acc + [Label(t, p.next.position)])
      else if t.Op? then
        var b := BuildExpression(s, p.next, t);
        match b.production
        case Err(e) => Parsed(Err(e), b.next)
        case Ok(prod) => ParseFrom(s, b.next, acc + [prod])
      else Parsed(Err(IncorrectToken(t)), p.next)
  }

  /** The state of a freshly built parser. */
  const Initial := ParserState(Cursor(0, 0, 0), 0)

  /** The result of `Parser::new(code).parse()`. */
  function Parse(code: string): (r: Result<seq<Production>, ParseError>)
    ensures r.Ok? ==> NoEofFrom(r.value, 0)
  {
    ParseFrom(code, Initial, []).productions
  }

  // ---------------------------------------------------------------------------
  // The stateful parser
  // ---------------------------------------------------------------------------

  /** The `Parser` struct: the lexer it owns and the pull counter `position`. */
  class Parser {
    const lexer: Lexer
    var position: nat

    ghost predicate Valid()
      reads this, lexer
    {
      lexer.Valid()
    }

    /** The lexer's cursor and the pull counter. */
    function State(): ParserState
      reads this, lexer
    {
      ParserState(lexer.At(), position)
    }

    /** `Parser::new`: a lexer at the start of `code`, nothing pulled yet. */
    constructor (code: string)
      ensures Valid() && fresh(lexer) && lexer.input == code && State() == Initial
    {
      lexer := new Lexer(code);
      position := 0;
    }

    /** `_next_token`: the counter grows by exactly one on every call, the one
        that finds the end of input included, and `EOF` becomes `None`. */
    method NextToken() returns (r: Result<Option<Token>, LexError>)
      requires Valid()
      modifies this, lexer
      ensures Valid() && Pulled(r, State()) == Pull(lexer.input, old(State()))
      ensures position == old(position) + 1
    {
      position := position + 1;
      var t := lexer.ParseToken();
      match t
      case Err(e) => r := Err(e);
      case Ok(tok) => r := Ok(if tok == Token.EOF then None else Some(tok));
    }

    /** `handle_expression`. */
    method HandleExpression(token: Token) returns (r: Result<Production, ParseError>)
      requires Valid() && token.Op?
      modifies this, lexer
      ensures Valid() && Built(r, State()) == BuildExpression(lexer.input, old(State()), token)
    {
      var expr := NewExpression;
      expr := expr.(operation := token);
      var t := NextToken();
      if t.Err? {
        return Err(Lexical(t.error));
      }
      if t.value.Some? {
        if !t.value.value.Register? {
          return Err(ExpectedRegister(t.value.value));
        }
        expr := expr.(right := t.value.value);
      }
      t := NextToken();
      if t.Err? {
        return Err(Lexical(t.error));
      }
      if t.value.Some? {
        if !t.value.value.Register? {
          return Err(ExpectedRegister(t.value.value));
        }
        expr := expr.(left := Some(t.value.value));
      }
      r := Ok(Expr(expr));
    }

    /** `parse`. */
    method Parse() returns (r: Result<seq<Production>, ParseError>)
      requires Valid()
      modifies this, lexer
      ensures Valid() && Parsed(r, State()) == ParseFrom(lexer.input, old(State()), [])
    {
      var productions := [];
      while true
        invariant Valid()
        invariant ParseFrom(lexer.input, old(State()), []) == ParseFrom(lexer.input, State(), productions)
        decreases |lexer.input| - lexer.pos
      {
        var t := NextToken();
        if t.Err? {
          return Err(Lexical(t.error));
        }
        if t.value.None? {
          break;
        }
        var token := t.value.value;
        var prod;
        if token.Ident? {
          prod := Label(token, position);
        } else if token.Op? {
          var e := HandleExpression(token);
          if e.Err? {
            return Err(e.error);
          }
          prod := e.value;
        } else {
          return Err(IncorrectToken(token));
        }
        productions := productions + [prod];
      }
      r := Ok(productions);
    }
  }
}
