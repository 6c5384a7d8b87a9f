/** Parsing undoes printing for statements and whole programs. */
module ProgramInversion {
  import opened Wrappers
  import opened Syntax
  import opened Grammar
  import opened Printer
  import opened Inversion

  /** What follows a statement and its newlines: something that neither continues it nor is a further
      newline. */
  predicate Settled(rest: Tokens) {
    rest != [] && rest[0] != NEWLINE && rest[0] != ELIF && rest[0] != ELSE
  }

  predicate IsStmtStart(t: Token) {
    IsStart(t) || t in {LET, IF, FOR, FN, RETURN, TRY, IMPORT}
  }

  lemma StmtHead(style: Style, s: Stmt, rest: Tokens)
    requires StmtPrintable(s)
    ensures StmtToks(style, s, rest) != [] && IsStmtStart(StmtToks(style, s, rest)[0])
  {
    var end := StmtEnd(style, rest);
    match s
    case AssignStmt(place, value) => TokHead(style, place, 0, [ASSIGN] + Tok(style, value, 0, end));
    case ExprStmt(expr) => TokHead(style, expr, 0, end);
    case _ =>
  }

  lemma BlockHead(style: Style, b: seq<Stmt>, rest: Tokens)
    requires BlockPrintable(b) && rest != []
    ensures b == [] ==> BlockToks(style, b, rest) == rest
    ensures b != [] ==> BlockToks(style, b, rest) != [] && IsStmtStart(BlockToks(style, b, rest)[0])
  {
    if b != [] { StmtHead(style, b[0], BlockToks(style, b[1..], rest)); }
  }

  /** A statement's tokens parse to it; of what is left at most its newline is unread. */
  ghost predicate Inverts(style: Style, s: Stmt, rest: Tokens)
    requires StmtPrintable(s)
  {
    var r := Statement(StmtToks(style, s, rest));
    r.Ok? && r.value == s && SkipNewlines(r.rest) == rest
  }

  /** What ends a statement: newlines, or what closes its block. */
  lemma SkipAfter(style: Style, rest: Tokens)
    requires Settled(rest)
    ensures SkipNewlines(StmtEnd(style, rest)) == rest && SkipNewlines(rest) == rest
    ensures Peek(StmtEnd(style, rest)) in {NEWLINE, RBRACE, EOF} && StmtEnd(style, rest) != []
  {
    SkipGap(style, rest);
    assert ([NEWLINE] + Gap(style, rest))[1..] == Gap(style, rest);
    hide Gap;
  }

  lemma {:induction false} SkipTwice(ts: Tokens)
    ensures SkipNewlines(SkipNewlines(ts)) == SkipNewlines(ts)
  {
    if ts != [] && ts[0] == NEWLINE { SkipTwice(ts[1..]); }
  }

  /** One statement of a block is read and the next one looked for. */
  lemma BlockStep(before: seq<Stmt>, s: Stmt, ts: Tokens, left: Tokens, stop: Token)
    requires ts != [] && IsStmtStart(ts[0]) && Statement(ts) == Ok(s, left) && (stop == RBRACE || stop == EOF)
    ensures Block(before, ts, stop) == Block(before + [s], SkipNewlines(left), stop)
  {
    hide Statement;
    SkipTwice(left);
    assert Block(before, ts, stop) == Block(before + [s], left, stop);
    assert Block(before + [s], left, stop) == Block(before + [s], SkipNewlines(left), stop);
  }

  lemma BlockEnds(before: seq<Stmt>, rest: Tokens, stop: Token)
    requires Peek(rest) == stop && (stop == RBRACE || stop == EOF)
    ensures Block(before, rest, stop) == Ok(before, rest)
  {
    hide Statement;
  }

  lemma {:induction false} BlockInverts(style: Style, before: seq<Stmt>, b: seq<Stmt>, rest: Tokens, stop: Token)
    requires BlockPrintable(b) && rest != [] && rest[0] == stop && (stop == RBRACE || stop == EOF)
    ensures Block(before, BlockToks(style, b, rest), stop) == Ok(before + b, rest)
    decreases b, 0
  {
    hide Statement, StmtToks, Block;
    var ts := BlockToks(style, b, rest);
    BlockHead(style, b, rest);
    if b == [] {
      BlockEnds(before, rest, stop);
      assert before + b == before;
    } else {
      var more := BlockToks(style, b[1..], rest);
      BlockHead(style, b[1..], rest);
      StatementInverts(style, b[0], more);
      BlockStep(before, b[0], ts, Statement(ts).rest, stop);
      BlockInverts(style, before + [b[0]], b[1..], rest, stop);
      assert before + [b[0]] + b[1..] == before + b;
    }
  }

  lemma {:induction false} BracedInverts(style: Style, b: seq<Stmt>, rest: Tokens)
    requires BlockPrintable(b)
    ensures Braced(Braces(style, b, rest)) == Ok(b, rest)
    decreases b, 1
  {
    var close := [RBRACE] + rest;
    var body := BlockToks(style, b, close);
    BlockHead(style, b, close);
    BlockInverts(style, [], b, close, RBRACE);
    assert [] + b == b;
    BracedFrom(style, body, b, rest);
    hide BlockToks, Block, Braced, Gap;
  }

  lemma BracedFrom(style: Style, body: Tokens, b: seq<Stmt>, rest: Tokens)
    requires SkipNewlines(body) == body && Block([], body, RBRACE) == Ok(b, [RBRACE] + rest)
    ensures Braced(Gap(style, [LBRACE] + Gap(style, body))) == Ok(b, rest)
  {
    var open := Gap(style, body);
    SkipGap(style, body);
    SkipGap(style, [LBRACE] + open);
    assert ([RBRACE] + rest)[1..] == rest && ([LBRACE] + open)[1..] == open;
    hide Statement, Gap, SkipNewlines;
    assert Block([], open, RBRACE) == Block([], body, RBRACE);
  }

  lemma {:induction false} GuardedInverts(style: Style, test: Expr, b: seq<Stmt>, rest: Tokens)
    requires Printable(test) && BlockPrintable(b)
    ensures Guarded(Tok(style, test, 0, Braces(style, b, rest))) == Ok(Elif(test, b), rest)
    decreases b, 2
  {
    ExpressionInverts(style, test, Braces(style, b, rest));
    BracedInverts(style, b, rest);
    hide Tok, Expression, Braced;
  }

  lemma {:induction false} ElifsInvert(style: Style, before: seq<Elif>, elifs: seq<Elif>, rest: Tokens)
    requires ElifsPrintable(elifs) && Peek(SkipNewlines(rest)) != ELIF
    ensures Elifs(before, SkipNewlines(ElifToks(style, elifs, rest))) == Ok(before + elifs, SkipNewlines(rest))
    decreases elifs, 0
  {
    if elifs == [] {
      assert before + elifs == before;
    } else {
      var next := elifs[0];
      var more := ElifToks(style, elifs[1..], rest);
      var guarded := Tok(style, next.test, 0, Braces(style, next.block, more));
      GuardedInverts(style, next.test, next.block, more);
      ElifsInvert(style, before + [Elif(next.test, next.block)], elifs[1..], rest);
      assert before + [next] + elifs[1..] == before + elifs;
      SkipGap(style, [ELIF] + guarded);
      assert ([ELIF] + guarded)[1..] == guarded;
      hide Tok, Guarded, Braces, Printable, BlockPrintable, Gap;
    }
  }

  lemma IfFrom(ts: Tokens, first: Elif, next: Tokens, elifs: seq<Elif>, tail: Tokens, els: Else, end: Tokens)
    requires Guarded(ts) == Ok(first, next) && Elifs([], SkipNewlines(next)) == Ok(elifs, tail)
    requires if els.Else? then tail != [] && tail[0] == ELSE && Braced(tail[1..]) == Ok(els.otherwise, end)
             else Peek(tail) != ELSE && end == tail
    ensures Grammar.If(ts) == Ok(IfStmt(first.test, first.block, elifs, els), end)
  {
    hide Guarded, Elifs, Braced, SkipNewlines;
  }

  lemma {:induction false} ElseInverts(style: Style, els: Else, rest: Tokens)
    requires (els.Else? ==> BlockPrintable(els.otherwise)) && Settled(rest)
    ensures var end := StmtEnd(style, rest);
      var tail := SkipNewlines(ElseToks(style, els, end));
      && SkipNewlines(end) == rest && Peek(tail) != ELIF
      && (if els.Else? then tail != [] && tail[0] == ELSE && Braced(tail[1..]) == Ok(els.otherwise, end)
          else Peek(tail) != ELSE && tail == rest)
    decreases els, 2
  {
    hide Braces, Braced, Gap, StmtEnd;
    var end := StmtEnd(style, rest);
    SkipAfter(style, rest);
    if els.Else? {
      BracedInverts(style, els.otherwise, end);
      SkipGap(style, [ELSE] + Braces(style, els.otherwise, end));
      assert ([ELSE] + Braces(style, els.otherwise, end))[1..] == Braces(style, els.otherwise, end);
    }
  }

  lemma {:induction false} IfInverts(style: Style, s: Stmt, rest: Tokens)
    requires StmtPrintable(s) && s.IfStmt? && Settled(rest)
    ensures Inverts(style, s, rest)
    decreases s, 0
  {
    hide Statement, Tok, Braces, ElifToks, Guarded, Elifs, Braced, BlockPrintable, ElifsPrintable, StmtEnd;
    var end := StmtEnd(style, rest);
    var els := ElseToks(style, s.els, end);
    var elifs := ElifToks(style, s.elifs, els);
    var guarded := Tok(style, s.cond, 0, Braces(style, s.body, elifs));
    StatementByKeyword(style, s, rest, IF, guarded);
    hide StmtToks, ElseToks;
    ElseInverts(style, s.els, rest);
    GuardedInverts(style, s.cond, s.body, elifs);
    ElifsInvert(style, [], s.elifs, els);
    assert [] + s.elifs == s.elifs;
    IfFrom(guarded, Elif(s.cond, s.body), elifs, s.elifs, SkipNewlines(els), s.els, if s.els.Else? then end else rest);
  }

  /** A statement that begins with its keyword is read by that keyword's rule. */
  lemma StatementByKeyword(style: Style, s: Stmt, rest: Tokens, keyword: Token, after: Tokens)
    requires StmtPrintable(s) && StmtToks(style, s, rest) == [keyword] + after
    ensures var ts := StmtToks(style, s, rest); ts != [] && ts[0] == keyword && ts[1..] == after
    ensures keyword == IF ==> Statement(StmtToks(style, s, rest)) == Grammar.If(after)
    ensures keyword == FOR ==> Statement(StmtToks(style, s, rest)) == Grammar.For(after)
    ensures keyword == FN ==> Statement(StmtToks(style, s, rest)) == Grammar.Fn(after)
    ensures keyword == TRY ==> Statement(StmtToks(style, s, rest)) == Grammar.Try(after)
    ensures keyword == LET ==> Statement(StmtToks(style, s, rest)) == Grammar.Let(after)
    ensures keyword == RETURN ==> Statement(StmtToks(style, s, rest)) == Grammar.Return(after)
  {
    hide StmtToks, StmtPrintable, Grammar.If, Grammar.For, Grammar.Fn, Grammar.Try, Grammar.Let, Grammar.Return;
    hide Simple, Import;
    assert ([keyword] + after)[1..] == after;
  }

  lemma {:induction false} ForInverts(style: Style, s: Stmt, rest: Tokens)
    requires StmtPrintable(s) && s.ForStmt? && Settled(rest)
    ensures Inverts(style, s, rest)
    decreases s, 0
  {
    hide Guarded, Statement, Tok, Braces, Expression;
    var end := StmtEnd(style, rest);
    SkipAfter(style, rest);
    GuardedInverts(style, s.iterable, s.body, end);
    var loop := Tok(style, s.iterable, 0, Braces(style, s.body, end));
    var keyword := [IN] + loop;
    var name := [IDENT(s.loopVar)] + keyword;
    StatementByKeyword(style, s, rest, FOR, name);
    assert name[1..] == keyword && keyword[1..] == loop;
    hide StmtToks, StmtPrintable;
    ForFrom(s.loopVar, keyword, loop, Elif(s.iterable, s.body), end);
  }

  lemma ForFrom(name: string, keyword: Tokens, loop: Tokens, body: Elif, end: Tokens)
    requires Eat(keyword, IN) == Ok((), loop) && Guarded(loop) == Ok(body, end)
    ensures Grammar.For([IDENT(name)] + keyword) == Ok(ForStmt(name, body.test, body.block), end)
  {
    assert ([IDENT(name)] + keyword)[1..] == keyword;
    hide Guarded;
  }

  lemma {:induction false} ParamsInvert(params: seq<string>, rest: Tokens)
    requires Peek(rest) == RPAREN && rest != []
    ensures Params(ParamToks(params, rest)) == Ok(params, rest)
  {
    if params != [] {
      var more := MoreParamToks(params[1..], rest);
      assert ([IDENT(params[0])] + more)[1..] == more;
      MoreParamsInvert([params[0]], params[1..], rest);
      assert [params[0]] + params[1..] == params;
    }
  }

  lemma {:induction false} MoreParamsInvert(before: seq<string>, params: seq<string>, rest: Tokens)
    requires Peek(rest) == RPAREN && rest != []
    decreases params
    ensures MoreParams(before, MoreParamToks(params, rest)) == Ok(before + params, rest)
  {
    if params == [] {
      assert before + params == before;
    } else {
      var more := MoreParamToks(params[1..], rest);
      var name := [IDENT(params[0])] + more;
      assert ([COMMA] + name)[1..] == name && name[1..] == more;
      MoreParamsInvert(before + [params[0]], params[1..], rest);
      assert before + [params[0]] + params[1..] == before + params;
    }
  }

  lemma {:induction false} FnInverts(style: Style, s: Stmt, rest: Tokens)
    requires StmtPrintable(s) && s.FnDef? && Settled(rest)
    ensures Inverts(style, s, rest)
    decreases s, 0
  {
    var end := StmtEnd(style, rest);
    var body := Braces(style, s.body, end);
    var close := [RPAREN] + body;
    var params := ParamToks(s.params, close);
    var open := [LPAREN] + params;
    var name := [IDENT(s.fn)] + open;
    FnToks(style, s, rest);
    hide Braces, Statement, ParamToks, BlockPrintable, Braced, Params, Eat, EatIdent, SkipNewlines, StmtToks;
    hide StmtPrintable;
    StatementByKeyword(style, s, rest, FN, name);
    SkipAfter(style, rest);
    BracedInverts(style, s.body, end);
    ParamsInvert(s.params, close);
    EatName(s.fn, open);
    EatOne(LPAREN, params);
    EatOne(RPAREN, body);
    FnFrom(name, s.fn, open, params, s.params, close, body, s.body, end);
  }

  lemma FnToks(style: Style, s: Stmt, rest: Tokens)
    requires StmtPrintable(s) && s.FnDef?
    ensures BlockPrintable(s.body)
    ensures StmtToks(style, s, rest) ==
            [FN] + ([IDENT(s.fn)]
              + ([LPAREN] + ParamToks(s.params, [RPAREN] + Braces(style, s.body, StmtEnd(style, rest)))))
  {
  }

  lemma FnFrom(ts: Tokens, name: string, open: Tokens, params: Tokens, names: seq<string>,
               close: Tokens, body: Tokens, b: seq<Stmt>, end: Tokens)
    requires EatIdent(ts) == Ok(name, open) && Eat(open, LPAREN) == Ok((), params) && Params(params) == Ok(names, close)
    requires Eat(close, RPAREN) == Ok((), body) && Braced(body) == Ok(b, end)
    ensures Grammar.Fn(ts) == Ok(FnDef(name, names, b), end)
  {
    hide Braced, Params, Eat, EatIdent;
  }

  lemma EatOne(t: Token, rest: Tokens)
    ensures Eat([t] + rest, t) == Ok((), rest)
    ensures t != NEWLINE ==> SkipNewlines([t] + rest) == [t] + rest
  {
    assert ([t] + rest)[1..] == rest;
  }

  lemma EatName(name: string, rest: Tokens)
    ensures EatIdent([IDENT(name)] + rest) == Ok(name, rest)
  {
    assert ([IDENT(name)] + rest)[1..] == rest;
  }

  lemma TryFrom(body: Tokens, b: seq<Stmt>, keyword: Tokens, ts: Tokens, name: string, handler: Tokens, h: seq<Stmt>,
                end: Tokens)
    requires Braced(body) == Ok(b, keyword) && Eat(SkipNewlines(keyword), CATCH) == Ok((), ts)
    requires EatIdent(ts) == Ok(name, handler) && Braced(handler) == Ok(h, end)
    ensures Grammar.Try(body) == Ok(TryCatch(b, name, h), end)
  {
    hide Braced, Eat, EatIdent, SkipNewlines;
  }

  lemma {:induction false} TryInverts(style: Style, s: Stmt, rest: Tokens)
    requires StmtPrintable(s) && s.TryCatch? && Settled(rest)
    ensures Inverts(style, s, rest)
    decreases s, 0
  {
    var end := StmtEnd(style, rest);
    var handler := Braces(style, s.handler, end);
    var name := [IDENT(s.catchVar)] + handler;
    var keyword := Gap(style, [CATCH] + name);
    var body := Braces(style, s.body, keyword);
    hide Braces, Statement, BlockPrintable;
    StatementByKeyword(style, s, rest, TRY, body);
    hide StmtToks, StmtPrintable;
    SkipAfter(style, rest);
    BracedInverts(style, s.handler, end);
    BracedInverts(style, s.body, keyword);
    SkipGap(style, [CATCH] + name);
    EatOne(CATCH, name);
    EatName(s.catchVar, handler);
    hide Braced, Eat, EatIdent;
    TryFrom(body, s.body, keyword, name, s.catchVar, handler, s.handler, end);
  }

  lemma SimpleStatement(ts: Tokens)
    requires ts != [] && IsStart(ts[0])
    ensures Statement(ts) == Simple(ts)
  {
    hide Simple;
  }

  lemma ExprStmtFrom(ts: Tokens, e: Expr, end: Tokens)
    requires Expression(ts) == Ok(e, end) && Peek(end) != ASSIGN
    ensures Simple(ts) == Ok(ExprStmt(e), SkipNewlines(end))
  {
    hide Expression, SkipNewlines;
  }

  lemma ExprStmtInverts(style: Style, s: Stmt, rest: Tokens)
    requires StmtPrintable(s) && s.ExprStmt? && Settled(rest)
    ensures Inverts(style, s, rest)
  {
    hide Tok, Expression, Statement, Simple;
    var end := StmtEnd(style, rest);
    SkipAfter(style, rest);
    TokHead(style, s.expr, 0, end);
    ExpressionInverts(style, s.expr, end);
    SimpleStatement(Tok(style, s.expr, 0, end));
    ExprStmtFrom(Tok(style, s.expr, 0, end), s.expr, end);
  }

  lemma AssignFrom(ts: Tokens, place: Expr, assign: Tokens, value: Expr, end: Tokens)
    requires Expression(ts) == Ok(place, assign) && Peek(assign) == ASSIGN && (place.VarRef? || place.IndexExpr?)
    requires Expression(assign[1..]) == Ok(value, end)
    ensures Simple(ts) == Ok(AssignStmt(place, value), SkipNewlines(end))
  {
    hide Expression, SkipNewlines;
  }

  lemma AssignInverts(style: Style, s: Stmt, rest: Tokens)
    requires StmtPrintable(s) && s.AssignStmt? && Settled(rest)
    ensures Inverts(style, s, rest)
  {
    hide Tok, Expression, Statement, Simple;
    var end := StmtEnd(style, rest);
    SkipAfter(style, rest);
    var value := Tok(style, s.value, 0, end);
    var assign := [ASSIGN] + value;
    TokHead(style, s.place, 0, assign);
    ExpressionInverts(style, s.value, end);
    ExpressionInverts(style, s.place, assign);
    assert assign[1..] == value;
    SimpleStatement(Tok(style, s.place, 0, assign));
    AssignFrom(Tok(style, s.place, 0, assign), s.place, assign, s.value, end);
  }

  lemma LetFrom(name: string, value: Tokens, e: Expr, end: Tokens)
    requires Expression(value) == Ok(e, end)
    ensures Grammar.Let([IDENT(name)] + ([ASSIGN] + value)) == Ok(LetStmt(name, e), SkipNewlines(end))
  {
    EatName(name, [ASSIGN] + value);
    EatOne(ASSIGN, value);
    hide Expression, Eat, EatIdent, SkipNewlines;
  }

  lemma LetInverts(style: Style, s: Stmt, rest: Tokens)
    requires StmtPrintable(s) && s.LetStmt? && Settled(rest)
    ensures Inverts(style, s, rest)
  {
    var end := StmtEnd(style, rest);
    var value := Tok(style, s.value, 0, end);
    hide Tok, Expression, Statement, StmtEnd, Formed, Hangs;
    SkipAfter(style, rest);
    ExpressionInverts(style, s.value, end);
    LetFrom(s.target, value, s.value, end);
    SkipTwice(end);
    StatementByKeyword(style, s, rest, LET, [IDENT(s.target)] + ([ASSIGN] + value));
  }

  lemma ReturnFrom(value: Tokens, e: Expr, end: Tokens)
    requires Expression(value) == Ok(e, end) && value != [] && IsStart(value[0])
    ensures Grammar.Return(value) == Ok(ReturnStmt(Some(e)), SkipNewlines(end))
  {
    hide Expression, SkipNewlines;
  }

  lemma BareReturnFrom(end: Tokens)
    requires Peek(end) in {NEWLINE, RBRACE, EOF}
    ensures Grammar.Return(end) == Ok(ReturnStmt(None), SkipNewlines(end))
  {
  }

  lemma ReturnInverts(style: Style, s: Stmt, rest: Tokens)
    requires StmtPrintable(s) && s.ReturnStmt? && Settled(rest)
    ensures Inverts(style, s, rest)
  {
    var end := StmtEnd(style, rest);
    hide Tok, Expression, Statement, StmtEnd, Formed, Hangs, IsStart;
    SkipAfter(style, rest);
    SkipTwice(end);
    if s.result.Some? {
      var value := Tok(style, s.result.value, 0, end);
      TokHead(style, s.result.value, 0, end);
      ExpressionInverts(style, s.result.value, end);
      ReturnFrom(value, s.result.value, end);
      StatementByKeyword(style, s, rest, RETURN, value);
    } else {
      BareReturnFrom(end);
      StatementByKeyword(style, s, rest, RETURN, end);
    }
  }

  lemma ImportInverts(style: Style, s: Stmt, rest: Tokens)
    requires StmtPrintable(s) && s.ImportStmt? && Settled(rest)
    ensures Inverts(style, s, rest)
  {
    var end := StmtEnd(style, rest);
    SkipAfter(style, rest);
    hide Simple;
    assert StmtToks(style, s, rest)[1..] == [STRING(s.path)] + end && ([STRING(s.path)] + end)[1..] == end;
  }

  /** The tokens of a statement and its newline, before something settled, parse to it. */
  lemma {:induction false} StatementInverts(style: Style, s: Stmt, rest: Tokens)
    requires StmtPrintable(s) && Settled(rest)
    ensures Inverts(style, s, rest)
    decreases s, 1
  {
    hide Inverts;
    match s
    case IfStmt(_, _, _, _) => IfInverts(style, s, rest);
    case ForStmt(_, _, _) => ForInverts(style, s, rest);
    case FnDef(_, _, _) => FnInverts(style, s, rest);
    case TryCatch(_, _, _) => TryInverts(style, s, rest);
    case LetStmt(_, _) => LetInverts(style, s, rest);
    case ReturnStmt(_) => ReturnInverts(style, s, rest);
    case ImportStmt(_) => ImportInverts(style, s, rest);
    case AssignStmt(_, _) => AssignInverts(style, s, rest);
    case ExprStmt(_) => ExprStmtInverts(style, s, rest);
  }

  /** The tokens of every printable program, with the end after them, parse to that program, and
      every token is read. */
  lemma ProgramInverts(style: Style, program: seq<Stmt>)
    requires BlockPrintable(program)
    ensures Program(ProgramToks(style, program)) == Ok(program, [])
  {
    var ts := BlockToks(style, program, [EOF]);
    BlockInverts(style, [], program, [EOF], EOF);
    BlockHead(style, program, [EOF]);
    assert [] + program == program;
    SkipGap(style, ts);
    hide BlockToks, Statement, Gap;
    assert Block([], Gap(style, ts), EOF) == Block([], ts, EOF);
  }
}
