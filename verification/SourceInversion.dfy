/** From a syntax tree to source text and back: lexing and parsing the text of a program gives the
    program. */
module SourceInversion {
  import opened Wrappers
  import opened Syntax
  import opened Grammar
  import opened Printer
  import opened Lexer
  import ProgramInversion

  /** What `parse` does with a source text; nothing stands for a lexing or parsing failure. */
  function ParseSource(source: string): Option<seq<Stmt>> {
    match LexAll(source)
    case None => None
    case Some(tokens) => var r := Program(tokens); if r.Ok? then Some(r.value) else None
  }

  // ----- programs whose names the lexer reads as names -----

  predicate CommandNamed(name: string) {
    if Dotted(name) then IsDotted(name) else IsIdent(name)
  }

  predicate Named(e: Expr)
    decreases e, 1
  {
    match e
    case ListLit(elements) => AllNamed(elements)
    case MapLit(pairs) => PairsNamed(pairs)
    case VarRef(name) => IsIdent(name)
    case IndexExpr(obj, index) => Named(obj) && Named(index)
    case BinOp(left, _, right) => Named(left) && Named(right)
    case UnaryOp(_, operand) => Named(operand)
    case FnCallExpr(name, args) => IsIdent(name) && AllNamed(args)
    case PipelineExpr(commands) => CommandsNamed(commands)
    case _ => true
  }

  predicate AllNamed(es: seq<Expr>)
    decreases es, 0
  {
    forall i | 0 <= i < |es| :: Named(es[i])
  }

  predicate PairsNamed(pairs: seq<Pair>)
    decreases pairs, 0
  {
    forall i | 0 <= i < |pairs| :: IsIdent(pairs[i].key) && Named(pairs[i].val)
  }

  predicate CommandsNamed(commands: seq<Command>)
    decreases commands, 0
  {
    forall i | 0 <= i < |commands| :: CommandNamed(commands[i].cmd) && AllNamed(commands[i].cmdArgs)
  }

  predicate StmtNamed(s: Stmt)
    decreases s, 1
  {
    match s
    case LetStmt(name, value) => IsIdent(name) && Named(value)
    case AssignStmt(place, value) => Named(place) && Named(value)
    case IfStmt(cond, body, elifs, els) =>
      Named(cond) && BlockNamed(body) && ElifsNamed(elifs) && (els.Else? ==> BlockNamed(els.otherwise))
    case ForStmt(name, iterable, body) => IsIdent(name) && Named(iterable) && BlockNamed(body)
    case FnDef(name, params, body) => IsIdent(name) && (forall p | p in params :: IsIdent(p)) && BlockNamed(body)
    case ReturnStmt(result) => result.Some? ==> Named(result.value)
    case TryCatch(body, name, handler) => BlockNamed(body) && IsIdent(name) && BlockNamed(handler)
    case ImportStmt(_) => true
    case ExprStmt(expr) => Named(expr)
  }

  predicate BlockNamed(b: seq<Stmt>)
    decreases b, 0
  {
    forall i | 0 <= i < |b| :: StmtNamed(b[i])
  }

  predicate ElifsNamed(elifs: seq<Elif>)
    decreases elifs, 0
  {
    forall i | 0 <= i < |elifs| :: Named(elifs[i].test) && BlockNamed(elifs[i].block)
  }

  // ----- their tokens can be spelled -----

  /** Tokens that can be spelled, and the end. */
  ghost predicate Spelled(ts: Tokens) {
    ts != [] && ts[|ts| - 1] == EOF && forall i :: 0 <= i < |ts| - 1 ==> Spellable(ts[i])
  }

  lemma SpelledFront(t: Token, ts: Tokens)
    requires Spellable(t) && Spelled(ts)
    ensures Spelled([t] + ts)
  {
  }

  lemma {:induction false} LinesSpelled(n: nat, rest: Tokens)
    requires Spelled(rest)
    ensures Spelled(Lines(n, rest))
  {
    if n > 0 {
      LinesSpelled(n - 1, rest);
      SpelledFront(NEWLINE, Lines(n - 1, rest));
    }
  }

  lemma GapSpelled(style: Style, rest: Tokens)
    requires Spelled(rest)
    ensures Spelled(Gap(style, rest))
  {
    LinesSpelled(style.lines(rest), rest);
  }

  lemma AfterSpelled(style: Style, rest: Tokens)
    requires Spelled(rest)
    ensures Spelled(StmtEnd(style, rest))
  {
    GapSpelled(style, rest);
    SpelledFront(NEWLINE, Gap(style, rest));
  }

  lemma ClosingSpelled(style: Style, close: Tokens)
    requires Spelled(close)
    ensures Spelled(Closing(style, close))
  {
    GapSpelled(style, close);
    SpelledFront(COMMA, Gap(style, close));
  }

  lemma {:induction false} TokSpelled(style: Style, e: Expr, level: nat, rest: Tokens)
    requires Formed(e) && Named(e) && Spelled(rest)
    ensures Spelled(Tok(style, e, level, rest))
    decreases e, 1
  {
    if Wrapped(style, e, level, rest) {
      var after := [RPAREN] + rest;
      SpelledFront(RPAREN, rest);
      BareSpelled(style, e, after);
      SpelledFront(LPAREN, Bare(style, e, after));
    } else {
      BareSpelled(style, e, rest);
    }
  }

  lemma {:induction false} BareSpelled(style: Style, e: Expr, rest: Tokens)
    requires Formed(e) && Named(e) && Spelled(rest)
    ensures Spelled(Bare(style, e, rest))
    decreases e, 0
  {
    hide Spelled, Tok, RightTok, Items, Elements, Pairs, Gap, IsIdent, IsNumeral, ReadNumber, IsPlain;
    match e
    case ListLit(elements) =>
      var after := [RBRACKET] + rest;
      SpelledFront(RBRACKET, rest);
      ElementsSpelled(style, elements, after);
      GapSpelled(style, Elements(style, elements, after));
      SpelledFront(LBRACKET, Gap(style, Elements(style, elements, after)));
    case MapLit(pairs) =>
      var after := [RBRACE] + rest;
      SpelledFront(RBRACE, rest);
      PairsSpelled(style, pairs, after);
      GapSpelled(style, Pairs(style, pairs, after));
      SpelledFront(LBRACE, Gap(style, Pairs(style, pairs, after)));
    case VarRef(name) =>
      SpelledFront(IDENT(name), rest);
      SpelledFront(DOLLAR, [IDENT(name)] + rest);
    case IndexExpr(obj, index) =>
      var close := [RBRACKET] + rest;
      SpelledFront(RBRACKET, rest);
      TokSpelled(style, index, 0, close);
      SpelledFront(LBRACKET, Tok(style, index, 0, close));
      TokSpelled(style, obj, INDEXED, [LBRACKET] + Tok(style, index, 0, close));
    case BinOp(left, op, right) =>
      var after := RightTok(style, left, op, right, rest);
      RightSpelled(style, left, op, right, rest);
      SpelledFront(OpToken(op), after);
      TokSpelled(style, left, LeftLevel(op), [OpToken(op)] + after);
    case UnaryOp(op, operand) =>
      TokSpelled(style, operand, UNARY, rest);
      SpelledFront(if op == NotOp then NOT else MINUS, Tok(style, operand, UNARY, rest));
    case FnCallExpr(name, args) =>
      var close := [RPAREN] + rest;
      SpelledFront(RPAREN, rest);
      ItemsSpelled(style, args, close);
      SpelledFront(LPAREN, Items(style, args, close));
      SpelledFront(IDENT(name), [LPAREN] + Items(style, args, close));
    case PipelineExpr(commands) =>
      PipelineSpelled(style, e, rest);
    case _ =>
      SpelledFront(Bare(style, e, rest)[0], rest);
  }

  lemma {:induction false} ParensSpelled(style: Style, e: Expr, rest: Tokens)
    requires Formed(e) && Named(e) && Spelled(rest)
    ensures Spelled([LPAREN] + Bare(style, e, [RPAREN] + rest))
    decreases e, 1
  {
    hide Spelled, Bare;
    SpelledFront(RPAREN, rest);
    BareSpelled(style, e, [RPAREN] + rest);
    SpelledFront(LPAREN, Bare(style, e, [RPAREN] + rest));
  }

  lemma {:induction false} RightSpelled(style: Style, left: Expr, op: BinaryOp, right: Expr, rest: Tokens)
    requires Formed(right) && Named(right) && Spelled(rest)
    ensures Spelled(RightTok(style, left, op, right, rest))
    decreases right, 2
  {
    hide Spelled, Tok, Bare;
    if !Hangs(left) {
      TokSpelled(style, right, OpLevel(op) + 1, rest);
    } else if !Hangs(right) {
      ParensSpelled(style, right, rest);
    } else if right.BinOp? {
      var after := Tok(style, right.right, OpLevel(right.op) + 1, rest);
      TokSpelled(style, right.right, OpLevel(right.op) + 1, rest);
      SpelledFront(OpToken(right.op), after);
      ParensSpelled(style, right.left, [OpToken(right.op)] + after);
    } else {
      BareSpelled(style, right, rest);
    }
  }

  lemma {:induction false} PipelineSpelled(style: Style, e: Expr, rest: Tokens)
    requires e.PipelineExpr? && Formed(e) && Named(e) && Spelled(rest)
    ensures Spelled(Bare(style, e, rest))
    decreases e, -1
  {
    hide Tok, Spelled;
    var commands := e.commands;
    assert CommandsPrintable(commands);
    assert AllPrintable(commands[0].cmdArgs);
    var more := Pipes(style, commands[1..], rest);
    PipesSpelled(style, commands[1..], rest);
    assert CommandsNamed(commands) && AllNamed(commands[0].cmdArgs);
    if IsCallHead(commands) {
      assert Named(commands[0].cmdArgs[0]);
      BareSpelled(style, commands[0].cmdArgs[0], more);
    } else {
      ArgsSpelled(style, commands[0].cmdArgs, more);
      SpelledFront(CommandToken(commands[0].cmd), ArgToks(style, commands[0].cmdArgs, more));
    }
  }

  lemma {:induction false} ItemsSpelled(style: Style, es: seq<Expr>, rest: Tokens)
    requires AllPrintable(es) && AllNamed(es) && Spelled(rest)
    ensures Spelled(Items(style, es, rest))
    decreases es, 1
  {
    if es != [] {
      MoreSpelled(style, es[1..], rest);
      TokSpelled(style, es[0], 0, MoreToks(style, es[1..], rest));
    }
  }

  lemma {:induction false} MoreSpelled(style: Style, es: seq<Expr>, rest: Tokens)
    requires AllPrintable(es) && AllNamed(es) && Spelled(rest)
    ensures Spelled(MoreToks(style, es, rest))
    decreases es, 0
  {
    if es != [] {
      MoreSpelled(style, es[1..], rest);
      var first := Tok(style, es[0], 0, MoreToks(style, es[1..], rest));
      TokSpelled(style, es[0], 0, MoreToks(style, es[1..], rest));
      SpelledFront(COMMA, first);
    }
  }

  lemma {:induction false} ElementsSpelled(style: Style, es: seq<Expr>, close: Tokens)
    requires AllPrintable(es) && AllNamed(es) && Spelled(close)
    ensures Spelled(Elements(style, es, close))
    decreases es, 1
  {
    if es != [] {
      MoreElementsSpelled(style, es[1..], close);
      TokSpelled(style, es[0], 0, MoreElements(style, es[1..], close));
    }
  }

  lemma {:induction false} MoreElementsSpelled(style: Style, es: seq<Expr>, close: Tokens)
    requires AllPrintable(es) && AllNamed(es) && Spelled(close)
    ensures Spelled(MoreElements(style, es, close))
    decreases es, 0
  {
    if es == [] {
      ClosingSpelled(style, close);
    } else {
      var more := MoreElements(style, es[1..], close);
      MoreElementsSpelled(style, es[1..], close);
      var first := Tok(style, es[0], 0, more);
      TokSpelled(style, es[0], 0, more);
      GapSpelled(style, first);
      SpelledFront(COMMA, Gap(style, first));
    }
  }

  lemma {:induction false} PairSpelled(style: Style, pair: Pair, rest: Tokens)
    requires Printable(pair.val) && IsIdent(pair.key) && Named(pair.val) && Spelled(rest)
    ensures Spelled(PairToks(style, pair, rest))
    decreases pair
  {
    TokSpelled(style, pair.val, 0, rest);
    SpelledFront(COLON, Tok(style, pair.val, 0, rest));
    SpelledFront(IDENT(pair.key), [COLON] + Tok(style, pair.val, 0, rest));
  }

  lemma {:induction false} PairsSpelled(style: Style, pairs: seq<Pair>, rest: Tokens)
    requires PairsPrintable(pairs) && PairsNamed(pairs) && Spelled(rest)
    ensures Spelled(Pairs(style, pairs, rest))
    decreases pairs, 1
  {
    if pairs != [] {
      MorePairsSpelled(style, pairs[1..], rest);
      PairSpelled(style, pairs[0], MorePairToks(style, pairs[1..], rest));
    }
  }

  lemma {:induction false} MorePairsSpelled(style: Style, pairs: seq<Pair>, close: Tokens)
    requires PairsPrintable(pairs) && PairsNamed(pairs) && Spelled(close)
    ensures Spelled(MorePairToks(style, pairs, close))
    decreases pairs, 0
  {
    if pairs == [] {
      ClosingSpelled(style, close);
    } else {
      var more := MorePairToks(style, pairs[1..], close);
      MorePairsSpelled(style, pairs[1..], close);
      PairSpelled(style, pairs[0], more);
      GapSpelled(style, PairToks(style, pairs[0], more));
      SpelledFront(COMMA, Gap(style, PairToks(style, pairs[0], more)));
    }
  }

  lemma {:induction false} ArgsSpelled(style: Style, args: seq<Expr>, rest: Tokens)
    requires AllPrintable(args) && AllNamed(args) && Spelled(rest)
    ensures Spelled(ArgToks(style, args, rest))
    decreases args
  {
    if args != [] {
      ArgsSpelled(style, args[1..], rest);
      ArgSpelled(style, args[0], ArgToks(style, args[1..], rest));
    }
  }

  lemma {:induction false} ArgSpelled(style: Style, e: Expr, rest: Tokens)
    requires Printable(e) && Named(e) && Spelled(rest)
    ensures Spelled(ArgTok(style, e, rest))
    decreases e, 2
  {
    hide Spelled, Bare, PlaceTok, IsIdent;
    if IsPlace(e) {
      PlaceSpelled(style, e, rest);
    } else if IsFlag(e) && style.dash(e, rest) {
      SpelledFront(IDENT(e.value[1..]), rest);
      SpelledFront(MINUS, [IDENT(e.value[1..])] + rest);
    } else if e.NumberLit? && Writable(Negate(e.num)) && style.dash(e, rest) {
      SpelledFront(NUMBER(Numeral(Negate(e.num))), rest);
      SpelledFront(MINUS, [NUMBER(Numeral(Negate(e.num)))] + rest);
    } else {
      BareSpelled(style, e, rest);
    }
  }

  lemma {:induction false} PlaceSpelled(style: Style, e: Expr, rest: Tokens)
    requires Printable(e) && IsPlace(e) && Named(e) && Spelled(rest)
    ensures Spelled(PlaceTok(style, e, rest))
    decreases e, 1
  {
    hide Spelled, Tok, IsIdent;
    if e.VarRef? {
      SpelledFront(IDENT(e.name), rest);
      SpelledFront(DOLLAR, [IDENT(e.name)] + rest);
    } else {
      var close := [RBRACKET] + rest;
      var index := Tok(style, e.index, 0, close);
      SpelledFront(RBRACKET, rest);
      TokSpelled(style, e.index, 0, close);
      SpelledFront(LBRACKET, index);
      PlaceSpelled(style, e.obj, [LBRACKET] + index);
    }
  }

  lemma {:induction false} PipesSpelled(style: Style, commands: seq<Command>, rest: Tokens)
    requires CommandsPrintable(commands) && CommandsNamed(commands) && Spelled(rest)
    ensures Spelled(Pipes(style, commands, rest))
    decreases commands
  {
    if commands != [] {
      assert AllPrintable(commands[0].cmdArgs);
      var more := Pipes(style, commands[1..], rest);
      var args := ArgToks(style, commands[0].cmdArgs, more);
      PipesSpelled(style, commands[1..], rest);
      ArgsSpelled(style, commands[0].cmdArgs, more);
      SpelledFront(CommandToken(commands[0].cmd), args);
      GapSpelled(style, [CommandToken(commands[0].cmd)] + args);
      SpelledFront(PIPE, Gap(style, [CommandToken(commands[0].cmd)] + args));
    }
  }

  lemma {:induction false} BlockSpelled(style: Style, b: seq<Stmt>, rest: Tokens)
    requires BlockPrintable(b) && BlockNamed(b) && Spelled(rest)
    ensures Spelled(BlockToks(style, b, rest))
    decreases b, 0
  {
    if b != [] {
      BlockSpelled(style, b[1..], rest);
      StmtSpelled(style, b[0], BlockToks(style, b[1..], rest));
    }
  }

  lemma {:induction false} BracesSpelled(style: Style, b: seq<Stmt>, rest: Tokens)
    requires BlockPrintable(b) && BlockNamed(b) && Spelled(rest)
    ensures Spelled(Braces(style, b, rest))
    decreases b, 1
  {
    var close := [RBRACE] + rest;
    var body := BlockToks(style, b, close);
    SpelledFront(RBRACE, rest);
    BlockSpelled(style, b, close);
    GapSpelled(style, body);
    SpelledFront(LBRACE, Gap(style, body));
    GapSpelled(style, [LBRACE] + Gap(style, body));
  }

  lemma {:induction false} ElifsSpelled(style: Style, elifs: seq<Elif>, rest: Tokens)
    requires ElifsPrintable(elifs) && ElifsNamed(elifs) && Spelled(rest)
    ensures Spelled(ElifToks(style, elifs, rest))
    decreases elifs
  {
    if elifs != [] {
      var more := ElifToks(style, elifs[1..], rest);
      var block := Braces(style, elifs[0].block, more);
      ElifsSpelled(style, elifs[1..], rest);
      BracesSpelled(style, elifs[0].block, more);
      TokSpelled(style, elifs[0].test, 0, block);
      SpelledFront(ELIF, Tok(style, elifs[0].test, 0, block));
      GapSpelled(style, [ELIF] + Tok(style, elifs[0].test, 0, block));
    }
  }

  lemma {:induction false} ParamsSpelled(params: seq<string>, rest: Tokens)
    requires (forall p | p in params :: IsIdent(p)) && Spelled(rest)
    ensures Spelled(ParamToks(params, rest)) && Spelled(MoreParamToks(params, rest))
  {
    if params != [] {
      ParamsSpelled(params[1..], rest);
      var more := MoreParamToks(params[1..], rest);
      SpelledFront(IDENT(params[0]), more);
      SpelledFront(COMMA, [IDENT(params[0])] + more);
    }
  }

  lemma {:induction false} StmtSpelled(style: Style, s: Stmt, rest: Tokens)
    requires StmtPrintable(s) && StmtNamed(s) && Spelled(rest)
    ensures Spelled(StmtToks(style, s, rest))
    decreases s, 1
  {
    var end := StmtEnd(style, rest);
    AfterSpelled(style, rest);
    hide Spelled, StmtEnd, Gap, Tok, Braces, ElifToks, ParamToks, Printable, BlockPrintable, ElifsPrintable;
    match s
    case LetStmt(name, value) =>
      var v := Tok(style, value, 0, end);
      TokSpelled(style, value, 0, end);
      SpelledFront(ASSIGN, v);
      SpelledFront(IDENT(name), [ASSIGN] + v);
      SpelledFront(LET, [IDENT(name)] + ([ASSIGN] + v));
    case AssignStmt(place, value) =>
      var v := Tok(style, value, 0, end);
      TokSpelled(style, value, 0, end);
      SpelledFront(ASSIGN, v);
      TokSpelled(style, place, 0, [ASSIGN] + v);
    case IfStmt(_, _, _, _) => IfSpelled(style, s, rest);
    case ForStmt(name, iterable, body) =>
      var block := Braces(style, body, end);
      BracesSpelled(style, body, end);
      TokSpelled(style, iterable, 0, block);
      SpelledFront(IN, Tok(style, iterable, 0, block));
      SpelledFront(IDENT(name), [IN] + Tok(style, iterable, 0, block));
      SpelledFront(FOR, [IDENT(name)] + ([IN] + Tok(style, iterable, 0, block)));
    case FnDef(name, params, body) =>
      var close := [RPAREN] + Braces(style, body, end);
      BracesSpelled(style, body, end);
      SpelledFront(RPAREN, Braces(style, body, end));
      ParamsSpelled(params, close);
      SpelledFront(LPAREN, ParamToks(params, close));
      SpelledFront(IDENT(name), [LPAREN] + ParamToks(params, close));
      SpelledFront(FN, [IDENT(name)] + ([LPAREN] + ParamToks(params, close)));
    case ReturnStmt(result) =>
      if result.Some? {
        TokSpelled(style, result.value, 0, end);
        SpelledFront(RETURN, Tok(style, result.value, 0, end));
      } else {
        SpelledFront(RETURN, end);
      }
    case TryCatch(body, name, handler) =>
      var h := [IDENT(name)] + Braces(style, handler, end);
      BracesSpelled(style, handler, end);
      SpelledFront(IDENT(name), Braces(style, handler, end));
      SpelledFront(CATCH, h);
      GapSpelled(style, [CATCH] + h);
      BracesSpelled(style, body, Gap(style, [CATCH] + h));
      SpelledFront(TRY, Braces(style, body, Gap(style, [CATCH] + h)));
    case ImportStmt(path) =>
      SpelledFront(STRING(path), end);
      SpelledFront(IMPORT, [STRING(path)] + end);
    case ExprStmt(expr) => TokSpelled(style, expr, 0, end);
  }

  lemma {:induction false} IfSpelled(style: Style, s: Stmt, rest: Tokens)
    requires s.IfStmt? && StmtPrintable(s) && StmtNamed(s) && Spelled(rest)
    ensures Spelled(StmtToks(style, s, rest))
    decreases s, 0
  {
    var end := StmtEnd(style, rest);
    AfterSpelled(style, rest);
    hide Spelled, StmtEnd, Gap, Tok, Braces, ElifToks, Printable, BlockPrintable, ElifsPrintable;
    var els := ElseToks(style, s.els, end);
    if s.els.Else? {
      BracesSpelled(style, s.els.otherwise, end);
      SpelledFront(ELSE, Braces(style, s.els.otherwise, end));
      GapSpelled(style, [ELSE] + Braces(style, s.els.otherwise, end));
    }
    var elifs := ElifToks(style, s.elifs, els);
    ElifsSpelled(style, s.elifs, els);
    BracesSpelled(style, s.body, elifs);
    TokSpelled(style, s.cond, 0, Braces(style, s.body, elifs));
    SpelledFront(IF, Tok(style, s.cond, 0, Braces(style, s.body, elifs)));
  }

  // ----- the whole way round -----

  /** The tokens of a program but for the end. */
  ghost function TokensOf(style: Style, program: seq<Stmt>): Tokens
    requires BlockPrintable(program)
  {
    var ts := ProgramToks(style, program);
    if ts == [] then [] else ts[..|ts| - 1]
  }

  /** The source text of a program. */
  ghost function SourceOf(style: Style, program: seq<Stmt>): string
    requires BlockPrintable(program)
  {
    Text(TokensOf(style, program))
  }

  lemma TokensParse(style: Style, program: seq<Stmt>)
    requires BlockPrintable(program) && BlockNamed(program)
    ensures var ts := TokensOf(style, program);
      && (forall i :: 0 <= i < |ts| ==> Spellable(ts[i]))
      && Program(ts + [EOF]) == Ok(program, [])
  {
    hide Program, BlockToks, Spellable, BlockPrintable, Gap;
    BlockSpelled(style, program, [EOF]);
    GapSpelled(style, BlockToks(style, program, [EOF]));
    var ts := ProgramToks(style, program);
    assert ts[..|ts| - 1] + [EOF] == ts;
    ProgramInversion.ProgramInverts(style, program);
  }

  /** Lexing and parsing the text of any printable program whose names are names gives back exactly
      that program, in whatever style it is written. */
  lemma SourceInverts(style: Style, program: seq<Stmt>)
    requires BlockPrintable(program) && BlockNamed(program)
    ensures ParseSource(SourceOf(style, program)) == Some(program)
  {
    hide Program, LexAll, Text, TokensOf, Spellable, BlockPrintable;
    TokensParse(style, program);
    SpellingInverts(TokensOf(style, program));
  }
}
