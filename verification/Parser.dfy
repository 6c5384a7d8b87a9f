/** The recursive-descent parser as an object with a cursor.  Every method is proved to read exactly
    what its grammar rule says, to stay inside the token list, and to terminate. */
module Parser {
  import opened Wrappers
  import opened Syntax
  import opened Grammar

  /** Token lists as the lexer makes them: one EOF, at the end. */
  ghost predicate Terminated(tokens: seq<Token>) {
    tokens != [] && tokens[|tokens| - 1] == EOF && forall i :: 0 <= i < |tokens| - 1 ==> tokens[i] != EOF
  }

  // ----- one argument of a command -----

  predicate StartsArg(ts: seq<Token>) {
    match Peek(ts)
    case STRING(_) => true
    case NUMBER(_) => true
    case DOLLAR => true
    case TRUE => true
    case FALSE => true
    case LBRACKET => true
    case IDENT(_) => Peek(ts[1..]) == LPAREN
    case MINUS => Peek(ts[1..]).NUMBER? || Peek(ts[1..]).IDENT?
    case _ => false
  }

  function OneArg(ts: seq<Token>): Parsed<Expr>
    requires StartsArg(ts)
  {
    var rest := ts[1..];
    match ts[0]
    case STRING(s) => Ok(StringLit(s), rest)
    case NUMBER(s) => Number(s, rest)
    case DOLLAR => Variable(rest)
    case TRUE => Ok(BoolLit(true), rest)
    case FALSE => Ok(BoolLit(false), rest)
    case LBRACKET => ListBody(rest)
    case IDENT(name) => Call(name, rest)
    case MINUS => Dashed(rest)
  }

  /** After a dash: a number to negate, or the name of a flag. */
  function Dashed(ts: seq<Token>): Parsed<Expr>
    requires Peek(ts).NUMBER? || Peek(ts).IDENT?
  {
    match ts[0]
    case NUMBER(s) =>
      (match ReadNumber(s) case Some(n) => Ok(NumberLit(Negate(n)), ts[1..]) case None => BadNumber)
    case IDENT(flag) => Ok(StringLit("-" + flag), ts[1..])
  }

  /** The grammar's arguments, taken one at a time. */
  lemma ArgsReadOne(args: seq<Expr>, ts: seq<Token>)
    requires StartsArg(ts)
    ensures Args(args, ts) == var one := OneArg(ts); if one.Ok? then Args(args + [one.value], one.rest) else Fail(one)
  {
    hide Variable, ListBody, Call;
  }

  lemma ArgsEnd(args: seq<Expr>, ts: seq<Token>)
    requires !StartsArg(ts)
    ensures Args(args, ts) == Ok(args, ts)
  {
    hide Variable, ListBody, Call;
  }

  // ----- a function's parameters -----

  /** Parameters in their parentheses. */
  function ParenParams(ts: seq<Token>): Parsed<seq<string>> {
    var open := Eat(ts, LPAREN);
    if !open.Ok? then Fail(open)
    else
      var params := Params(open.rest);
      if !params.Ok? then params
      else
        var close := Eat(params.rest, RPAREN);
        if close.Ok? then Ok(params.value, close.rest) else Fail(close)
  }

  lemma FnReadsParens(ts: seq<Token>)
    ensures
      var name := EatIdent(ts);
      Fn(ts) ==
      if !name.Ok? then Fail(name)
      else
        var params := ParenParams(name.rest);
        if !params.Ok? then Fail(params)
        else
          var body := Braced(params.rest);
          if body.Ok? then Ok(FnDef(name.value, params.value, body.value), body.rest) else Fail(body)
  {
    hide Params, Braced;
  }

  class Parser {
    const tokens: seq<Token>
    var pos: nat

    constructor (tokens: seq<Token>)
      requires Terminated(tokens)
      ensures Valid() && this.tokens == tokens && pos == 0
    {
      this.tokens := tokens;
      pos := 0;
    }

    ghost predicate Valid()
      reads this
    {
      Terminated(tokens) && pos < |tokens|
    }

    /** The tokens from the cursor on. */
    function Rest(): seq<Token>
      requires pos <= |tokens|
      reads this
    {
      tokens[pos..]
    }

    /** A method has read what a grammar rule reads: the same value or failure, with the cursor on
        the same remaining tokens. */
    ghost predicate Did<T>(r: Parsed<T>, spec: Parsed<T>)
      reads this
    {
      Valid() && r == spec && (r.Ok? ==> Rest() == r.rest)
    }

    // ----- the cursor -----

    function Here(): Token
      requires Valid()
      reads this
      ensures Here() == Peek(Rest())
    {
      tokens[pos]
    }

    /** Steps over a token that is not the end. */
    method Advance()
      requires Valid() && Here() != EOF
      modifies this`pos
      ensures Valid() && pos == old(pos) + 1 && Rest() == old(Rest())[1..]
    {
      pos := pos + 1;
    }

    method EatToken(t: Token) returns (r: Parsed<()>)
      requires Valid() && t != EOF
      modifies this`pos
      ensures Did(r, Eat(old(Rest()), t))
    {
      if Here() != t { return Unexpected(|tokens| - pos); }
      Advance();
      r := Ok((), Rest());
    }

    method EatName() returns (r: Parsed<string>)
      requires Valid()
      modifies this`pos
      ensures Did(r, EatIdent(old(Rest())))
    {
      if !Here().IDENT? { return Unexpected(|tokens| - pos); }
      var name := Here().name;
      Advance();
      r := Ok(name, Rest());
    }

    method SkipBlankLines()
      requires Valid()
      modifies this`pos
      ensures Valid() && Rest() == SkipNewlines(old(Rest())) && pos >= old(pos)
    {
      while Here() == NEWLINE
        invariant Valid() && pos >= old(pos) && SkipNewlines(Rest()) == SkipNewlines(old(Rest()))
        decreases |tokens| - pos
      {
        Advance();
      }
    }

    // ----- the expression ladder -----

    method ParseExpression() returns (r: Parsed<Expr>)
      requires Valid()
      modifies this`pos
      ensures Did(r, Expression(old(Rest())))
      decreases |tokens| - pos, 20
    {
      r := OrExpr();
    }

    method OrExpr() returns (r: Parsed<Expr>)
      requires Valid()
      modifies this`pos
      ensures Did(r, Ladder(0, old(Rest())))
      decreases |tokens| - pos, 15
    {
      ghost var start := Rest();
      var left :- AndExpr();
      while Here() == OR
        invariant Valid() && |Rest()| < |start| && Ladder(0, start) == Climb(0, left, Rest())
        decreases |tokens| - pos
      {
        Advance();
        var right :- AndExpr();
        left := BinOp(left, OrOp, right);
      }
      r := Ok(left, Rest());
    }

    method AndExpr() returns (r: Parsed<Expr>)
      requires Valid()
      modifies this`pos
      ensures Did(r, Ladder(1, old(Rest())))
      decreases |tokens| - pos, 14
    {
      ghost var start := Rest();
      var left :- Compare();
      while Here() == AND
        invariant Valid() && |Rest()| < |start| && Ladder(1, start) == Climb(1, left, Rest())
        decreases |tokens| - pos
      {
        Advance();
        var right :- Compare();
        left := BinOp(left, AndOp, right);
      }
      r := Ok(left, Rest());
    }

    method Compare() returns (r: Parsed<Expr>)
      requires Valid()
      modifies this`pos
      ensures Did(r, Ladder(2, old(Rest())))
      decreases |tokens| - pos, 13
    {
      ghost var start := Rest();
      var left :- Addition();
      assert Ladder(2, start) == Climb(2, left, Rest());
      if Here() in {EQ, NE, LT, GT, LE, GE} {
        var op := OpAt(COMPARE, Here()).value;
        Advance();
        var right :- Addition();
        left := BinOp(left, op, right);
      }
      r := Ok(left, Rest());
    }

    method Addition() returns (r: Parsed<Expr>)
      requires Valid()
      modifies this`pos
      ensures Did(r, Ladder(3, old(Rest())))
      decreases |tokens| - pos, 12
    {
      ghost var start := Rest();
      var left :- Term();
      while Here() in {PLUS, MINUS}
        invariant Valid() && |Rest()| < |start| && Ladder(3, start) == Climb(3, left, Rest())
        decreases |tokens| - pos
      {
        var op := OpAt(3, Here()).value;
        Advance();
        var right :- Term();
        left := BinOp(left, op, right);
      }
      r := Ok(left, Rest());
    }

    method Term() returns (r: Parsed<Expr>)
      requires Valid()
      modifies this`pos
      ensures Did(r, Ladder(4, old(Rest())))
      decreases |tokens| - pos, 11
    {
      ghost var start := Rest();
      var left :- ParseUnary();
      assert Ladder(5, start) == Unary(start);
      while Here() in {STAR, SLASH}
        invariant Valid() && |Rest()| < |start| && Ladder(4, start) == Climb(4, left, Rest())
        decreases |tokens| - pos
      {
        ghost var after := Rest()[1..];
        var op := OpAt(4, Here()).value;
        Advance();
        assert Ladder(5, after) == Unary(after);
        var right :- ParseUnary();
        left := BinOp(left, op, right);
      }
      r := Ok(left, Rest());
    }

    method ParseUnary() returns (r: Parsed<Expr>)
      requires Valid()
      modifies this`pos
      ensures Did(r, Unary(old(Rest())))
      decreases |tokens| - pos, 10
    {
      if Here() == NOT {
        Advance();
        var operand :- ParseUnary();
        return Ok(UnaryOp(NotOp, operand), Rest());
      }
      if Here() == MINUS {
        Advance();
        var operand :- ParseUnary();
        return Ok(UnaryOp(NegOp, operand), Rest());
      }
      r := ParsePostfix();
    }

    method ParsePostfix() returns (r: Parsed<Expr>)
      requires Valid()
      modifies this`pos
      ensures Did(r, Postfix(old(Rest())))
      decreases |tokens| - pos, 9
    {
      var expr :- ParsePrimary();
      r := ParseIndexes(expr);
    }

    /** The loop that reads bracketed indexes, shared by postfix expressions and variables. */
    method ParseIndexes(base: Expr) returns (r: Parsed<Expr>)
      requires Valid()
      modifies this`pos
      ensures Did(r, Indexes(base, old(Rest())))
      decreases |tokens| - pos, 0
    {
      ghost var start := Rest();
      var expr := base;
      while Here() == LBRACKET
        invariant Valid() && |Rest()| <= |start| && Indexes(base, start) == Indexes(expr, Rest())
        decreases |tokens| - pos
      {
        Advance();
        var index :- ParseExpression();
        var _ :- EatToken(RBRACKET);
        expr := IndexExpr(expr, index);
      }
      r := Ok(expr, Rest());
    }

    method ParsePrimary() returns (r: Parsed<Expr>)
      requires Valid()
      modifies this`pos
      ensures Did(r, Primary(old(Rest())))
      decreases |tokens| - pos, 8
    {
      hide Expression, ListBody, MapBody, Variable, CommandFrom, CommandOrVar, Call;
      match Here()
      case STRING(s) =>
        Advance();
        r := Ok(StringLit(s), Rest());
      case NUMBER(s) =>
        Advance();
        r := Number(s, Rest());
      case TRUE =>
        Advance();
        r := Ok(BoolLit(true), Rest());
      case FALSE =>
        Advance();
        r := Ok(BoolLit(false), Rest());
      case NULL =>
        Advance();
        r := Ok(NullLit, Rest());
      case LBRACKET =>
        r := ParseList();
      case LBRACE =>
        r := ParseMap();
      case LPAREN =>
        Advance();
        var inner :- ParseExpression();
        var _ :- EatToken(RPAREN);
        r := Ok(inner, Rest());
      case DOLLAR =>
        r := ParseVariable();
      case DOTTED(name) =>
        Advance();
        r := ParseCommand(name);
      case IDENT(name) =>
        Advance();
        if Here() == LPAREN { r := ParseCall(name); } else { r := ParseCommandOrVar(name); }
      case _ =>
        r := Unexpected(|tokens| - pos);
    }

    method ParseVariable() returns (r: Parsed<Expr>)
      requires Valid() && Here() == DOLLAR
      modifies this`pos
      ensures Did(r, Variable(old(Rest())[1..]))
      decreases |tokens| - pos, 1
    {
      Advance();
      var name :- EatName();
      r := ParseIndexes(VarRef(name));
    }

    // ----- lists, maps and calls -----

    method ParseList() returns (r: Parsed<Expr>)
      requires Valid() && Here() == LBRACKET
      modifies this`pos
      ensures Did(r, ListBody(old(Rest())[1..]))
      decreases |tokens| - pos, 1
    {
      hide ListItems, SkipNewlines, Terminated;
      Advance();
      SkipBlankLines();
      var elements :- ParseListItems();
      SkipBlankLines();
      var _ :- EatToken(RBRACKET);
      r := Ok(ListLit(elements), Rest());
    }

    method ParseListItems() returns (r: Parsed<seq<Expr>>)
      requires Valid()
      modifies this`pos
      ensures Did(r, ListItems(old(Rest())))
      decreases |tokens| - pos, 21
    {
      hide Expression, SkipNewlines;
      ghost var start := Rest();
      if Here() == RBRACKET { return Ok([], Rest()); }
      var first :- ParseExpression();
      var elements := [first];
      while Here() == COMMA
        invariant Valid() && |Rest()| < |start| && ListItems(start) == MoreItems(elements, Rest())
        decreases |tokens| - pos
      {
        Advance();
        SkipBlankLines();
        if Here() == RBRACKET { return Ok(elements, Rest()); }
        var element :- ParseExpression();
        elements := elements + [element];
      }
      r := Ok(elements, Rest());
    }

    method ParsePair() returns (r: Parsed<Pair>)
      requires Valid()
      modifies this`pos
      ensures Did(r, MapPair(old(Rest())))
      decreases |tokens| - pos, 21
    {
      var key :- EatName();
      var _ :- EatToken(COLON);
      var val :- ParseExpression();
      r := Ok(Pair(key, val), Rest());
    }

    method ParseMap() returns (r: Parsed<Expr>)
      requires Valid() && Here() == LBRACE
      modifies this`pos
      ensures Did(r, MapBody(old(Rest())[1..]))
      decreases |tokens| - pos, 1
    {
      hide MapPairs, SkipNewlines, Terminated;
      Advance();
      SkipBlankLines();
      var pairs :- ParsePairs();
      SkipBlankLines();
      var _ :- EatToken(RBRACE);
      r := Ok(MapLit(pairs), Rest());
    }

    method ParsePairs() returns (r: Parsed<seq<Pair>>)
      requires Valid()
      modifies this`pos
      ensures Did(r, MapPairs(old(Rest())))
      decreases |tokens| - pos, 22
    {
      hide MapPair, SkipNewlines;
      ghost var start := Rest();
      if Here() == RBRACE { return Ok([], Rest()); }
      var first :- ParsePair();
      var pairs := [first];
      while Here() == COMMA
        invariant Valid() && |Rest()| < |start| && MapPairs(start) == MorePairs(pairs, Rest())
        decreases |tokens| - pos
      {
        Advance();
        SkipBlankLines();
        if Here() == RBRACE { return Ok(pairs, Rest()); }
        var pair :- ParsePair();
        pairs := pairs + [pair];
      }
      r := Ok(pairs, Rest());
    }

    method ParseCall(name: string) returns (r: Parsed<Expr>)
      requires Valid() && Here() == LPAREN
      modifies this`pos
      ensures Did(r, Call(name, old(Rest())))
      decreases |tokens| - pos, 1
    {
      hide CallArgs, Piped;
      Advance();
      var args :- ParseCallArgs();
      var _ :- EatToken(RPAREN);
      var result := FnCallExpr(name, args);
      if Here() != PIPE { return Ok(result, Rest()); }
      r := ExtendPipeline([Command(CALL, [result])]);
    }

    method ParseCallArgs() returns (r: Parsed<seq<Expr>>)
      requires Valid()
      modifies this`pos
      ensures Did(r, CallArgs(old(Rest())))
      decreases |tokens| - pos, 21
    {
      hide Expression;
      ghost var start := Rest();
      if Here() == RPAREN { return Ok([], Rest()); }
      var first :- ParseExpression();
      var args := [first];
      while Here() == COMMA
        invariant Valid() && |Rest()| < |start| && CallArgs(start) == MoreArgs(args, Rest())
        decreases |tokens| - pos
      {
        Advance();
        var arg :- ParseExpression();
        args := args + [arg];
      }
      r := Ok(args, Rest());
    }

    // ----- commands and pipelines -----

    method ParseCommand(name: string) returns (r: Parsed<Expr>)
      requires Valid()
      modifies this`pos
      ensures Did(r, CommandFrom(name, old(Rest())))
      decreases |tokens| - pos, 4
    {
      var args :- ParseArgs();
      r := ExtendPipeline([Command(name, args)]);
    }

    method ParseCommandOrVar(name: string) returns (r: Parsed<Expr>)
      requires Valid()
      modifies this`pos
      ensures Did(r, CommandOrVar(name, old(Rest())))
      decreases |tokens| - pos, 5
    {
      if LooksLikeArg(Rest()) {
        r := ParseCommand(name);
      } else if Here() == PIPE {
        r := ExtendPipeline([Command(name, [])]);
      } else {
        r := Ok(VarRef(name), Rest());
      }
    }

    /** The token after the next one. */
    function Following(): Token
      requires Valid() && Here() != EOF
      reads this
      ensures Following() == Peek(Rest()[1..])
    {
      tokens[pos + 1]
    }

    /** A command's arguments: one is read whenever the next token begins one. */
    method ParseArgs() returns (r: Parsed<seq<Expr>>)
      requires Valid()
      modifies this`pos
      ensures Did(r, Args([], old(Rest())))
      decreases |tokens| - pos, 3
    {
      hide Args;
      ghost var start := Rest();
      var args := [];
      while BeginsArg()
        invariant Valid() && |Rest()| <= |start| && Args([], start) == Args(args, Rest())
        decreases |tokens| - pos
      {
        ghost var here := Rest();
        ArgsReadOne(args, here);
        var arg :- ParseArg();
        args := args + [arg];
      }
      ArgsEnd(args, Rest());
      r := Ok(args, Rest());
    }

    /** The next token begins an argument. */
    predicate BeginsArg()
      requires Valid()
      reads this
      ensures BeginsArg() == StartsArg(Rest())
    {
      match Here()
      case STRING(_) => true
      case NUMBER(_) => true
      case DOLLAR => true
      case TRUE => true
      case FALSE => true
      case LBRACKET => true
      case IDENT(_) => Following() == LPAREN
      case MINUS => Following().NUMBER? || Following().IDENT?
      case _ => false
    }

    method ParseArg() returns (r: Parsed<Expr>)
      requires Valid() && BeginsArg()
      modifies this`pos
      ensures Did(r, OneArg(old(Rest())))
      ensures r.Ok? ==> pos > old(pos)
      decreases |tokens| - pos, 2
    {
      hide Variable, Call, ListBody;
      match Here()
      case STRING(s) =>
        Advance();
        r := Ok(StringLit(s), Rest());
      case NUMBER(s) =>
        Advance();
        r := Number(s, Rest());
      case DOLLAR =>
        r := ParseVariable();
      case TRUE =>
        Advance();
        r := Ok(BoolLit(true), Rest());
      case FALSE =>
        Advance();
        r := Ok(BoolLit(false), Rest());
      case IDENT(name) =>
        Advance();
        r := ParseCall(name);
      case LBRACKET =>
        r := ParseList();
      case MINUS =>
        r := ParseDashed();
    }

    /** A negative number, or a flag, which is a string that starts with the dash. */
    method ParseDashed() returns (r: Parsed<Expr>)
      requires Valid() && Here() == MINUS && (Following().NUMBER? || Following().IDENT?)
      modifies this`pos
      ensures Did(r, Dashed(old(Rest())[1..]))
      ensures r.Ok? ==> pos > old(pos)
    {
      Advance();
      var t := Here();
      Advance();
      if t.IDENT? { return Ok(StringLit("-" + t.name), Rest()); }
      var number := ReadNumber(t.text);
      if number.None? { return BadNumber; }
      r := Ok(NumberLit(Negate(number.value)), Rest());
    }

    method ExtendPipeline(commands: seq<Command>) returns (r: Parsed<Expr>)
      requires Valid()
      modifies this`pos
      ensures Did(r, Piped(commands, old(Rest())))
      decreases |tokens| - pos, 0
    {
      ghost var start := Rest();
      var pipeline := commands;
      while Here() == PIPE
        invariant Valid() && |Rest()| <= |start| && Piped(commands, start) == Piped(pipeline, Rest())
        decreases |tokens| - pos
      {
        Advance();
        SkipBlankLines();
        var name := CommandName(Here());
        if name.None? { return Unexpected(|tokens| - pos); }
        Advance();
        var args :- ParseArgs();
        pipeline := pipeline + [Command(name.value, args)];
      }
      r := Ok(PipelineExpr(pipeline), Rest());
    }

    // ----- statements -----

    /** Statements up to a token that is left unread. */
    method ParseBlock(stop: Token) returns (r: Parsed<seq<Stmt>>)
      requires Valid()
      modifies this`pos
      ensures Did(r, Block([], old(Rest()), stop))
      decreases |tokens| - pos, 30
    {
      ghost var start := Rest();
      var stmts := [];
      SkipBlankLines();
      BlockSkips([], start, stop);
      while Here() != stop
        invariant Valid() && |Rest()| <= |start| && SkipNewlines(Rest()) == Rest()
        invariant Block([], start, stop) == Block(stmts, Rest(), stop)
        decreases |tokens| - pos
      {
        var stmt :- ParseStatement();
        stmts := stmts + [stmt];
        BlockSkips(stmts, Rest(), stop);
        SkipBlankLines();
      }
      r := Ok(stmts, Rest());
    }

    static lemma {:induction false} BlockSkips(stmts: seq<Stmt>, ts: seq<Token>, stop: Token)
      ensures SkipNewlines(SkipNewlines(ts)) == SkipNewlines(ts)
      ensures Block(stmts, SkipNewlines(ts), stop) == Block(stmts, ts, stop)
      decreases |ts|
    {
      hide Statement;
      if ts != [] && ts[0] == NEWLINE { BlockSkips(stmts, ts[1..], stop); }
    }

    method ParseBraced() returns (r: Parsed<seq<Stmt>>)
      requires Valid()
      modifies this`pos
      ensures Did(r, Braced(old(Rest())))
      decreases |tokens| - pos, 31
    {
      hide Eat, Block, SkipNewlines;
      SkipBlankLines();
      var _ :- EatToken(LBRACE);
      var body :- ParseBlock(RBRACE);
      var _ :- EatToken(RBRACE);
      r := Ok(body, Rest());
    }

    method ParseStatement() returns (r: Parsed<Stmt>)
      requires Valid()
      modifies this`pos
      ensures Did(r, Statement(old(Rest())))
      decreases |tokens| - pos, 29
    {
      hide Simple, Let, If, For, Fn, Return, Try, Import;
      match Here()
      case LET => r := ParseLet();
      case IF => r := ParseIf();
      case FOR => r := ParseFor();
      case FN => r := ParseFn();
      case RETURN => r := ParseReturn();
      case TRY => r := ParseTry();
      case IMPORT => r := ParseImport();
      case _ => r := ParseSimple();
    }

    method ParseSimple() returns (r: Parsed<Stmt>)
      requires Valid()
      modifies this`pos
      ensures Did(r, Simple(old(Rest())))
      decreases |tokens| - pos, 21
    {
      var expr :- ParseExpression();
      if Here() == ASSIGN && (expr.VarRef? || expr.IndexExpr?) {
        Advance();
        var value :- ParseExpression();
        SkipBlankLines();
        return Ok(AssignStmt(expr, value), Rest());
      }
      SkipBlankLines();
      r := Ok(ExprStmt(expr), Rest());
    }

    method ParseLet() returns (r: Parsed<Stmt>)
      requires Valid() && Here() == LET
      modifies this`pos
      ensures Did(r, Let(old(Rest())[1..]))
      decreases |tokens| - pos, 21
    {
      hide Eat, EatIdent, Expression, SkipNewlines;
      Advance();
      var name :- EatName();
      var _ :- EatToken(ASSIGN);
      var value :- ParseExpression();
      SkipBlankLines();
      r := Ok(LetStmt(name, value), Rest());
    }

    /** A condition and the block it guards. */
    method ParseGuarded() returns (r: Parsed<Elif>)
      requires Valid()
      modifies this`pos
      ensures Did(r, Guarded(old(Rest())))
      decreases |tokens| - pos, 21
    {
      var cond :- ParseExpression();
      var body :- ParseBraced();
      r := Ok(Elif(cond, body), Rest());
    }

    method ParseIf() returns (r: Parsed<Stmt>)
      requires Valid() && Here() == IF
      modifies this`pos
      ensures Did(r, If(old(Rest())[1..]))
      decreases |tokens| - pos, 22
    {
      hide Eat, Guarded, Braced, Elifs, SkipNewlines;
      Advance();
      var first :- ParseGuarded();
      SkipBlankLines();
      var elifs :- ParseElifs();
      if Here() != ELSE { return Ok(IfStmt(first.test, first.block, elifs, NoElse), Rest()); }
      Advance();
      var body :- ParseBraced();
      r := Ok(IfStmt(first.test, first.block, elifs, Else(body)), Rest());
    }

    method ParseElifs() returns (r: Parsed<seq<Elif>>)
      requires Valid()
      modifies this`pos
      ensures Did(r, Elifs([], old(Rest())))
      decreases |tokens| - pos, 23
    {
      hide Guarded, SkipNewlines;
      ghost var start := Rest();
      var elifs := [];
      while Here() == ELIF
        invariant Valid() && |Rest()| <= |start| && Elifs([], start) == Elifs(elifs, Rest())
        decreases |tokens| - pos
      {
        Advance();
        var next :- ParseGuarded();
        elifs := elifs + [next];
        SkipBlankLines();
      }
      r := Ok(elifs, Rest());
    }

    method ParseFor() returns (r: Parsed<Stmt>)
      requires Valid() && Here() == FOR
      modifies this`pos
      ensures Did(r, For(old(Rest())[1..]))
      decreases |tokens| - pos, 22
    {
      hide Guarded;
      Advance();
      var name :- EatName();
      var _ :- EatToken(IN);
      var loop :- ParseGuarded();
      r := Ok(ForStmt(name, loop.test, loop.block), Rest());
    }

    method ParseFn() returns (r: Parsed<Stmt>)
      requires Valid() && Here() == FN
      modifies this`pos
      ensures Did(r, Fn(old(Rest())[1..]))
      decreases |tokens| - pos, 22
    {
      hide Eat, EatIdent, Braced, ParenParams;
      Advance();
      var name :- EatName();
      FnReadsParens(old(Rest())[1..]);
      var params :- ParseParenParams();
      var body :- ParseBraced();
      r := Ok(FnDef(name, params, body), Rest());
    }

    method ParseParenParams() returns (r: Parsed<seq<string>>)
      requires Valid()
      modifies this`pos
      ensures Did(r, ParenParams(old(Rest())))
      ensures r.Ok? ==> pos > old(pos)
    {
      hide Params;
      var _ :- EatToken(LPAREN);
      var params :- ParseParams();
      var _ :- EatToken(RPAREN);
      r := Ok(params, Rest());
    }

    method ParseParams() returns (r: Parsed<seq<string>>)
      requires Valid()
      modifies this`pos
      ensures Did(r, Params(old(Rest())))
    {
      ghost var start := Rest();
      if Here() == RPAREN { return Ok([], Rest()); }
      var first :- EatName();
      var params := [first];
      while Here() == COMMA
        invariant Valid() && |Rest()| < |start| && Params(start) == MoreParams(params, Rest())
        decreases |tokens| - pos
      {
        Advance();
        var param :- EatName();
        params := params + [param];
      }
      r := Ok(params, Rest());
    }

    method ParseReturn() returns (r: Parsed<Stmt>)
      requires Valid() && Here() == RETURN
      modifies this`pos
      ensures Did(r, Return(old(Rest())[1..]))
      decreases |tokens| - pos, 22
    {
      Advance();
      if Here() in {NEWLINE, RBRACE, EOF} {
        SkipBlankLines();
        return Ok(ReturnStmt(None), Rest());
      }
      var value :- ParseExpression();
      SkipBlankLines();
      r := Ok(ReturnStmt(Some(value)), Rest());
    }

    method ParseTry() returns (r: Parsed<Stmt>)
      requires Valid() && Here() == TRY
      modifies this`pos
      ensures Did(r, Try(old(Rest())[1..]))
      decreases |tokens| - pos, 22
    {
      hide Braced, SkipNewlines;
      Advance();
      var body :- ParseBraced();
      SkipBlankLines();
      var _ :- EatToken(CATCH);
      var name :- EatName();
      var handler :- ParseBraced();
      r := Ok(TryCatch(body, name, handler), Rest());
    }

    method ParseImport() returns (r: Parsed<Stmt>)
      requires Valid() && Here() == IMPORT
      modifies this`pos
      ensures Did(r, Import(old(Rest())[1..]))
    {
      Advance();
      if !Here().STRING? { return Unexpected(|tokens| - pos); }
      var path := Here().text;
      Advance();
      SkipBlankLines();
      r := Ok(ImportStmt(path), Rest());
    }

    /** The whole program: on success every token, the end included, has been read. */
    method Parse() returns (r: Parsed<seq<Stmt>>)
      requires Valid()
      modifies this`pos
      ensures r == Program(old(Rest()))
      ensures r.Ok? ==> r.rest == [] && pos == |tokens|
    {
      hide Block;
      var stmts :- ParseBlock(EOF);
      if Here() != EOF { return Unexpected(|tokens| - pos); }
      pos := pos + 1;
      r := Ok(stmts, Rest());
    }
  }
}
