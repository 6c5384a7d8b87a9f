/** The grammar the parser recognises, as functions from the tokens still to read to a tree and the
    tokens left over. */
module Grammar {
  import opened Wrappers
  import opened Syntax

  /** Either a value and the tokens after it, or the failure: a token the grammar does not allow
      (with the number of tokens from it on), or a numeral that cannot be converted. */
  datatype Parsed<+T> = Ok(value: T, rest: seq<Token>) | Unexpected(left: nat) | BadNumber {
    predicate IsFailure() {
      !Ok?
    }

    function PropagateFailure<U>(): Parsed<U>
      requires IsFailure()
    {
      Fail(this)
    }

    function Extract(): T
      requires !IsFailure()
    {
      value
    }
  }

  function Fail<T, U>(p: Parsed<T>): Parsed<U>
    requires !p.Ok?
  {
    match p case Unexpected(left) => Unexpected(left) case BadNumber => BadNumber
  }

  function Peek(ts: seq<Token>): Token {
    if ts == [] then EOF else ts[0]
  }

  function SkipNewlines(ts: seq<Token>): (r: seq<Token>)
    ensures |r| <= |ts|
  {
    if ts != [] && ts[0] == NEWLINE then SkipNewlines(ts[1..]) else ts
  }

  /** Reads one given token. */
  function Eat(ts: seq<Token>, t: Token): (r: Parsed<()>)
    ensures r.Ok? ==> |r.rest| < |ts|
  {
    if ts != [] && ts[0] == t then Ok((), ts[1..]) else Unexpected(|ts|)
  }

  function EatIdent(ts: seq<Token>): (r: Parsed<string>)
    ensures r.Ok? ==> |r.rest| < |ts|
  {
    if ts != [] && ts[0].IDENT? then Ok(ts[0].name, ts[1..]) else Unexpected(|ts|)
  }

  // ----- operators -----

  const COMPARE := 2
  const UNARY := 5

  /** The operator a token stands for at a level of the ladder: or, and, comparison, sum, product. */
  function OpAt(level: nat, t: Token): Option<BinaryOp> {
    match level
    case 0 => if t == OR then Some(OrOp) else None
    case 1 => if t == AND then Some(AndOp) else None
    case 2 => (match t
               case EQ => Some(EqOp) case NE => Some(NeOp) case LT => Some(LtOp)
               case GT => Some(GtOp) case LE => Some(LeOp) case GE => Some(GeOp) case _ => None)
    case 3 => if t == PLUS then Some(AddOp) else if t == MINUS then Some(SubOp) else None
    case 4 => if t == STAR then Some(MulOp) else if t == SLASH then Some(DivOp) else None
    case _ => None
  }

  // ----- expressions -----

  function Expression(ts: seq<Token>): (r: Parsed<Expr>)
    ensures r.Ok? ==> |r.rest| < |ts|
    decreases |ts|, 20
  {
    Ladder(0, ts)
  }

  /** The expression at one level of the ladder: operands of the next level joined by this one's
      operators. */
  function Ladder(level: nat, ts: seq<Token>): (r: Parsed<Expr>)
    requires level <= UNARY
    ensures r.Ok? ==> |r.rest| < |ts|
    decreases |ts|, 10 + UNARY - level
  {
    if level == UNARY then Unary(ts)
    else
      var left := Ladder(level + 1, ts);
      if left.Ok? then Climb(level, left.value, left.rest) else left
  }

  /** What follows an operand: operators of this level are taken left to right, except that a
      comparison takes only one. */
  function Climb(level: nat, left: Expr, ts: seq<Token>): (r: Parsed<Expr>)
    requires level < UNARY
    ensures r.Ok? ==> |r.rest| <= |ts|
    decreases |ts|, 20
  {
    var op := OpAt(level, Peek(ts));
    if op.None? || ts == [] then Ok(left, ts)
    else
      var right := Ladder(level + 1, ts[1..]);
      if !right.Ok? then right
      else if level == COMPARE then Ok(BinOp(left, op.value, right.value), right.rest)
      else Climb(level, BinOp(left, op.value, right.value), right.rest)
  }

  function Unary(ts: seq<Token>): (r: Parsed<Expr>)
    ensures r.Ok? ==> |r.rest| < |ts|
    decreases |ts|, 9
  {
    if ts != [] && (ts[0] == NOT || ts[0] == MINUS) then
      var operand := Unary(ts[1..]);
      if operand.Ok? then Ok(UnaryOp(if ts[0] == NOT then NotOp else NegOp, operand.value), operand.rest)
      else operand
    else Postfix(ts)
  }

  function Postfix(ts: seq<Token>): (r: Parsed<Expr>)
    ensures r.Ok? ==> |r.rest| < |ts|
    decreases |ts|, 8
  {
    var expr := Primary(ts);
    if expr.Ok? then Indexes(expr.value, expr.rest) else expr
  }

  /** Any number of bracketed indexes. */
  function Indexes(expr: Expr, ts: seq<Token>): (r: Parsed<Expr>)
    ensures r.Ok? ==> |r.rest| <= |ts|
    decreases |ts|, 0
  {
    if Peek(ts) != LBRACKET then Ok(expr, ts)
    else
      var index := Expression(ts[1..]);
      if !index.Ok? then index
      else
        var close := Eat(index.rest, RBRACKET);
        if close.Ok? then Indexes(IndexExpr(expr, index.value), close.rest) else Fail(close)
  }

  function Number(text: string, rest: seq<Token>): (r: Parsed<Expr>)
    ensures r.Ok? ==> r.rest == rest
  {
    match ReadNumber(text) case Some(n) => Ok(NumberLit(n), rest) case None => BadNumber
  }

  function Primary(ts: seq<Token>): (r: Parsed<Expr>)
    ensures r.Ok? ==> |r.rest| < |ts|
    decreases |ts|, 7
  {
    if ts == [] then Unexpected(0)
    else
      var rest := ts[1..];
      match ts[0]
      case STRING(s) => Ok(StringLit(s), rest)
      case NUMBER(s) => Number(s, rest)
      case TRUE => Ok(BoolLit(true), rest)
      case FALSE => Ok(BoolLit(false), rest)
      case NULL => Ok(NullLit, rest)
      case LBRACKET => ListBody(rest)
      case LBRACE => MapBody(rest)
      case LPAREN =>
        var inner := Expression(rest);
        if !inner.Ok? then inner
        else
          var close := Eat(inner.rest, RPAREN);
          if close.Ok? then Ok(inner.value, close.rest) else Fail(close)
      case DOLLAR => Variable(rest)
      case DOTTED(name) => CommandFrom(name, rest)
      case IDENT(name) => if Peek(rest) == LPAREN then Call(name, rest) else CommandOrVar(name, rest)
      case _ => Unexpected(|ts|)
  }

  /** After a dollar sign: a name and its indexes. */
  function Variable(ts: seq<Token>): (r: Parsed<Expr>)
    ensures r.Ok? ==> |r.rest| < |ts|
    decreases |ts|, 1
  {
    var name := EatIdent(ts);
    if name.Ok? then Indexes(VarRef(name.value), name.rest) else Fail(name)
  }

  // ----- lists, maps and calls -----

  /** Expressions separated by commas, the first one given. */
  function MoreArgs(args: seq<Expr>, ts: seq<Token>): (r: Parsed<seq<Expr>>)
    ensures r.Ok? ==> |r.rest| <= |ts|
    decreases |ts|, 0
  {
    if Peek(ts) != COMMA then Ok(args, ts)
    else
      var arg := Expression(ts[1..]);
      if arg.Ok? then MoreArgs(args + [arg.value], arg.rest) else Fail(arg)
  }

  /** After a function's name: its arguments in parentheses, and a pipeline if one follows. */
  function Call(name: string, ts: seq<Token>): (r: Parsed<Expr>)
    requires Peek(ts) == LPAREN
    ensures r.Ok? ==> |r.rest| < |ts|
    decreases |ts|, 1
  {
    var args := CallArgs(ts[1..]);
    if !args.Ok? then Fail(args)
    else
      var close := Eat(args.rest, RPAREN);
      if !close.Ok? then Fail(close)
      else if Peek(close.rest) == PIPE then
        Piped([Command(CALL, [FnCallExpr(name, args.value)])], close.rest)
      else Ok(FnCallExpr(name, args.value), close.rest)
  }

  function CallArgs(ts: seq<Token>): (r: Parsed<seq<Expr>>)
    ensures r.Ok? ==> |r.rest| <= |ts|
    decreases |ts|, 21
  {
    if Peek(ts) == RPAREN then Ok([], ts)
    else
      var first := Expression(ts);
      if first.Ok? then MoreArgs([first.value], first.rest) else Fail(first)
  }

  /** After a list's opening bracket. */
  function ListBody(ts: seq<Token>): (r: Parsed<Expr>)
    ensures r.Ok? ==> |r.rest| < |ts|
    decreases |ts|, 22
  {
    var items := ListItems(SkipNewlines(ts));
    if !items.Ok? then Fail(items)
    else
      var close := Eat(SkipNewlines(items.rest), RBRACKET);
      if close.Ok? then Ok(ListLit(items.value), close.rest) else Fail(close)
  }

  function ListItems(ts: seq<Token>): (r: Parsed<seq<Expr>>)
    ensures r.Ok? ==> |r.rest| <= |ts|
    decreases |ts|, 21
  {
    if Peek(ts) == RBRACKET then Ok([], ts)
    else
      var first := Expression(ts);
      if first.Ok? then MoreItems([first.value], first.rest) else Fail(first)
  }

  /** Further elements; a comma may be followed by newlines, and the last one by nothing. */
  function MoreItems(items: seq<Expr>, ts: seq<Token>): (r: Parsed<seq<Expr>>)
    ensures r.Ok? ==> |r.rest| <= |ts|
    decreases |ts|, 0
  {
    if Peek(ts) != COMMA then Ok(items, ts)
    else
      var after := SkipNewlines(ts[1..]);
      if Peek(after) == RBRACKET then Ok(items, after)
      else
        var item := Expression(after);
        if item.Ok? then MoreItems(items + [item.value], item.rest) else Fail(item)
  }

  /** After a map's opening brace. */
  function MapBody(ts: seq<Token>): (r: Parsed<Expr>)
    ensures r.Ok? ==> |r.rest| < |ts|
    decreases |ts|, 23
  {
    var pairs := MapPairs(SkipNewlines(ts));
    if !pairs.Ok? then Fail(pairs)
    else
      var close := Eat(SkipNewlines(pairs.rest), RBRACE);
      if close.Ok? then Ok(MapLit(pairs.value), close.rest) else Fail(close)
  }

  function MapPairs(ts: seq<Token>): (r: Parsed<seq<Pair>>)
    ensures r.Ok? ==> |r.rest| <= |ts|
    decreases |ts|, 22
  {
    if Peek(ts) == RBRACE then Ok([], ts)
    else
      var first := MapPair(ts);
      if first.Ok? then MorePairs([first.value], first.rest) else Fail(first)
  }

  function MapPair(ts: seq<Token>): (r: Parsed<Pair>)
    ensures r.Ok? ==> |r.rest| < |ts|
    decreases |ts|, 21
  {
    var key := EatIdent(ts);
    if !key.Ok? then Fail(key)
    else
      var colon := Eat(key.rest, COLON);
      if !colon.Ok? then Fail(colon)
      else
        var val := Expression(colon.rest);
        if val.Ok? then Ok(Pair(key.value, val.value), val.rest) else Fail(val)
  }

  function MorePairs(pairs: seq<Pair>, ts: seq<Token>): (r: Parsed<seq<Pair>>)
    ensures r.Ok? ==> |r.rest| <= |ts|
    decreases |ts|, 0
  {
    if Peek(ts) != COMMA then Ok(pairs, ts)
    else
      var after := SkipNewlines(ts[1..]);
      if Peek(after) == RBRACE then Ok(pairs, after)
      else
        var pair := MapPair(after);
        if pair.Ok? then MorePairs(pairs + [pair.value], pair.rest) else Fail(pair)
  }

  // ----- commands and pipelines -----

  /** After a command's name: its arguments, and the rest of its pipeline. */
  function CommandFrom(name: string, ts: seq<Token>): (r: Parsed<Expr>)
    ensures r.Ok? ==> |r.rest| <= |ts|
    decreases |ts|, 4
  {
    var args := Args([], ts);
    if args.Ok? then Piped([Command(name, args.value)], args.rest) else Fail(args)
  }

  /** The token begins something that only a command's argument can be. */
  predicate LooksLikeArg(ts: seq<Token>) {
    var t := Peek(ts);
    t.STRING? || t.NUMBER? || t == DOLLAR || t == MINUS || (t.IDENT? && |ts| > 1 && ts[1] == LPAREN)
  }

  /** After a bare name: a command if an argument or a pipe follows, and otherwise a variable. */
  function CommandOrVar(name: string, ts: seq<Token>): (r: Parsed<Expr>)
    ensures r.Ok? ==> |r.rest| <= |ts|
    decreases |ts|, 5
  {
    if LooksLikeArg(ts) then CommandFrom(name, ts)
    else if Peek(ts) == PIPE then Piped([Command(name, [])], ts)
    else Ok(VarRef(name), ts)
  }

  /** A command's arguments, up to the first token that cannot begin one. */
  function Args(args: seq<Expr>, ts: seq<Token>): (r: Parsed<seq<Expr>>)
    ensures r.Ok? ==> |r.rest| <= |ts|
    decreases |ts|, 3
  {
    if ts == [] then Ok(args, ts)
    else
      var rest := ts[1..];
      match ts[0]
      case STRING(s) => Args(args + [StringLit(s)], rest)
      case NUMBER(s) =>
        (match ReadNumber(s) case Some(n) => Args(args + [NumberLit(n)], rest) case None => BadNumber)
      case DOLLAR =>
        var v := Variable(rest);
        if v.Ok? then Args(args + [v.value], v.rest) else Fail(v)
      case TRUE => Args(args + [BoolLit(true)], rest)
      case FALSE => Args(args + [BoolLit(false)], rest)
      case IDENT(name) =>
        if Peek(rest) == LPAREN then
          var call := Call(name, rest);
          if call.Ok? then Args(args + [call.value], call.rest) else Fail(call)
        else Ok(args, ts)
      case LBRACKET =>
        var list := ListBody(rest);
        if list.Ok? then Args(args + [list.value], list.rest) else Fail(list)
      case MINUS =>
        (match Peek(rest)
         case NUMBER(s) =>
           (match ReadNumber(s) case Some(n) => Args(args + [NumberLit(Negate(n))], rest[1..]) case None => BadNumber)
         case IDENT(flag) => Args(args + [StringLit("-" + flag)], rest[1..])
         case _ => Ok(args, ts))
      case _ => Ok(args, ts)
  }

  function CommandName(t: Token): Option<string> {
    if t.DOTTED? || t.IDENT? then Some(t.name) else None
  }

  /** Further commands, each after a pipe and any newlines. */
  function Piped(commands: seq<Command>, ts: seq<Token>): (r: Parsed<Expr>)
    ensures r.Ok? ==> |r.rest| <= |ts|
    decreases |ts|, 0
  {
    if Peek(ts) != PIPE then Ok(PipelineExpr(commands), ts)
    else
      var after := SkipNewlines(ts[1..]);
      var name := CommandName(Peek(after));
      if name.None? || after == [] then Unexpected(|after|)
      else
        var args := Args([], after[1..]);
        if args.Ok? then Piped(commands + [Command(name.value, args.value)], args.rest) else Fail(args)
  }

  // ----- statements -----

  /** Statements up to a given token, which is left unread. */
  function Block(stmts: seq<Stmt>, ts: seq<Token>, stop: Token): (r: Parsed<seq<Stmt>>)
    ensures r.Ok? ==> |r.rest| <= |ts|
    decreases |ts|, 30
  {
    var here := SkipNewlines(ts);
    if Peek(here) == stop then Ok(stmts, here)
    else
      var stmt := Statement(here);
      if stmt.Ok? then Block(stmts + [stmt.value], stmt.rest, stop) else Fail(stmt)
  }

  /** A block in braces. */
  function Braced(ts: seq<Token>): (r: Parsed<seq<Stmt>>)
    ensures r.Ok? ==> |r.rest| < |ts|
    decreases |ts|, 31
  {
    var open := Eat(SkipNewlines(ts), LBRACE);
    if !open.Ok? then Fail(open)
    else
      var body := Block([], open.rest, RBRACE);
      if !body.Ok? then body
      else
        var close := Eat(body.rest, RBRACE);
        if close.Ok? then Ok(body.value, close.rest) else Fail(close)
  }

  function Statement(ts: seq<Token>): (r: Parsed<Stmt>)
    ensures r.Ok? ==> |r.rest| < |ts|
    decreases |ts|, 29
  {
    match Peek(ts)
    case LET => Let(ts[1..])
    case IF => If(ts[1..])
    case FOR => For(ts[1..])
    case FN => Fn(ts[1..])
    case RETURN => Return(ts[1..])
    case TRY => Try(ts[1..])
    case IMPORT => Import(ts[1..])
    case _ => Simple(ts)
  }

  /** An expression statement or an assignment. */
  function Simple(ts: seq<Token>): (r: Parsed<Stmt>)
    ensures r.Ok? ==> |r.rest| < |ts|
    decreases |ts|, 21
  {
    var expr := Expression(ts);
    if !expr.Ok? then Fail(expr)
    else if Peek(expr.rest) == ASSIGN && (expr.value.VarRef? || expr.value.IndexExpr?) then
      var value := Expression(expr.rest[1..]);
      if value.Ok? then Ok(AssignStmt(expr.value, value.value), SkipNewlines(value.rest)) else Fail(value)
    else Ok(ExprStmt(expr.value), SkipNewlines(expr.rest))
  }

  function Let(ts: seq<Token>): (r: Parsed<Stmt>)
    ensures r.Ok? ==> |r.rest| < |ts|
    decreases |ts|, 21
  {
    var name := EatIdent(ts);
    if !name.Ok? then Fail(name)
    else
      var assign := Eat(name.rest, ASSIGN);
      if !assign.Ok? then Fail(assign)
      else
        var value := Expression(assign.rest);
        if value.Ok? then Ok(LetStmt(name.value, value.value), SkipNewlines(value.rest)) else Fail(value)
  }

  /** A condition and the block it guards. */
  function Guarded(ts: seq<Token>): (r: Parsed<Elif>)
    ensures r.Ok? ==> |r.rest| < |ts|
    decreases |ts|, 21
  {
    var cond := Expression(ts);
    if !cond.Ok? then Fail(cond)
    else
      var body := Braced(cond.rest);
      if body.Ok? then Ok(Elif(cond.value, body.value), body.rest) else Fail(body)
  }

  function If(ts: seq<Token>): (r: Parsed<Stmt>)
    ensures r.Ok? ==> |r.rest| < |ts|
    decreases |ts|, 22
  {
    var first := Guarded(ts);
    if !first.Ok? then Fail(first)
    else
      var more := Elifs([], SkipNewlines(first.rest));
      if !more.Ok? then Fail(more)
      else if Peek(more.rest) == ELSE then
        var els := Braced(more.rest[1..]);
        if els.Ok? then Ok(IfStmt(first.value.test, first.value.block, more.value, Else(els.value)), els.rest)
        else Fail(els)
      else Ok(IfStmt(first.value.test, first.value.block, more.value, NoElse), more.rest)
  }

  function Elifs(elifs: seq<Elif>, ts: seq<Token>): (r: Parsed<seq<Elif>>)
    ensures r.Ok? ==> |r.rest| <= |ts|
    decreases |ts|, 0
  {
    if Peek(ts) != ELIF then Ok(elifs, ts)
    else
      var next := Guarded(ts[1..]);
      if next.Ok? then Elifs(elifs + [next.value], SkipNewlines(next.rest)) else Fail(next)
  }

  function For(ts: seq<Token>): (r: Parsed<Stmt>)
    ensures r.Ok? ==> |r.rest| < |ts|
    decreases |ts|, 22
  {
    var name := EatIdent(ts);
    if !name.Ok? then Fail(name)
    else
      var keyword := Eat(name.rest, IN);
      if !keyword.Ok? then Fail(keyword)
      else
        var loop := Guarded(keyword.rest);
        if loop.Ok? then Ok(ForStmt(name.value, loop.value.test, loop.value.block), loop.rest) else Fail(loop)
  }

  function Params(ts: seq<Token>): (r: Parsed<seq<string>>)
    ensures r.Ok? ==> |r.rest| <= |ts|
  {
    if Peek(ts) == RPAREN then Ok([], ts)
    else
      var first := EatIdent(ts);
      if first.Ok? then MoreParams([first.value], first.rest) else Fail(first)
  }

  function MoreParams(params: seq<string>, ts: seq<Token>): (r: Parsed<seq<string>>)
    ensures r.Ok? ==> |r.rest| <= |ts|
    decreases |ts|
  {
    if Peek(ts) != COMMA then Ok(params, ts)
    else
      var param := EatIdent(ts[1..]);
      if param.Ok? then MoreParams(params + [param.value], param.rest) else Fail(param)
  }

  function Fn(ts: seq<Token>): (r: Parsed<Stmt>)
    ensures r.Ok? ==> |r.rest| < |ts|
    decreases |ts|, 22
  {
    var name := EatIdent(ts);
    if !name.Ok? then Fail(name)
    else
      var open := Eat(name.rest, LPAREN);
      if !open.Ok? then Fail(open)
      else
        var params := Params(open.rest);
        if !params.Ok? then Fail(params)
        else
          var close := Eat(params.rest, RPAREN);
          if !close.Ok? then Fail(close)
          else
            var body := Braced(close.rest);
            if body.Ok? then Ok(FnDef(name.value, params.value, body.value), body.rest) else Fail(body)
  }

  function Return(ts: seq<Token>): (r: Parsed<Stmt>)
    ensures r.Ok? ==> |r.rest| <= |ts|
    decreases |ts|, 22
  {
    if Peek(ts) in {NEWLINE, RBRACE, EOF} then Ok(ReturnStmt(None), SkipNewlines(ts))
    else
      var value := Expression(ts);
      if value.Ok? then Ok(ReturnStmt(Some(value.value)), SkipNewlines(value.rest)) else Fail(value)
  }

  function Try(ts: seq<Token>): (r: Parsed<Stmt>)
    ensures r.Ok? ==> |r.rest| < |ts|
    decreases |ts|, 33
  {
    var body := Braced(ts);
    if body.Ok? then Catch(body.value, SkipNewlines(body.rest)) else Fail(body)
  }

  /** What catches the errors of a block. */
  function Catch(body: seq<Stmt>, ts: seq<Token>): (r: Parsed<Stmt>)
    ensures r.Ok? ==> |r.rest| < |ts|
    decreases |ts|, 32
  {
    var keyword := Eat(ts, CATCH);
    if !keyword.Ok? then Fail(keyword)
    else
      var name := EatIdent(keyword.rest);
      if !name.Ok? then Fail(name)
      else
        var handler := Braced(name.rest);
        if handler.Ok? then Ok(TryCatch(body, name.value, handler.value), handler.rest) else Fail(handler)
  }

  function Import(ts: seq<Token>): (r: Parsed<Stmt>)
    ensures r.Ok? ==> |r.rest| < |ts|
  {
    if ts != [] && ts[0].STRING? then Ok(ImportStmt(ts[0].text), SkipNewlines(ts[1..])) else Unexpected(|ts|)
  }

  /** A whole program: statements up to the end, which is read too. */
  function Program(ts: seq<Token>): Parsed<seq<Stmt>> {
    var body := Block([], ts, EOF);
    if !body.Ok? then body
    else
      var end := Eat(body.rest, EOF);
      if end.Ok? then Ok(body.value, end.rest) else Fail(end)
  }
}
