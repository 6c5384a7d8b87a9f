/** Parsing, printing and parsing again: for every text that parses, when writing the program out gives
    a text that parses to the same program. */
module ParsedPrograms {
  import opened Wrappers
  import opened Syntax
  import opened Grammar
  import opened Printer
  import opened Lexer
  import opened SourceInversion
  import opened ParsedTrees
  import opened Inversion
  import opened ProgramInversion
  import P = Parser

  /** What is read is a sound block, and what is left is lexed. */
  ghost predicate ReadsBlock(r: Parsed<seq<Stmt>>) {
    r.Ok? ==> BlockSound(r.value) && FromLexer(r.rest)
  }

  ghost predicate ReadsStmt(r: Parsed<Stmt>) {
    r.Ok? ==> StmtSound(r.value) && FromLexer(r.rest)
  }

  ghost predicate ElifsSound(elifs: seq<Elif>) {
    forall i | 0 <= i < |elifs| :: ElifSound(elifs[i])
  }

  lemma BlockParts(b: seq<Stmt>)
    requires BlockSound(b)
    ensures BlockNamed(b) && BlockPrintable(b)
  {
    hide StmtNamed, StmtPrintable;
    assert forall i :: 0 <= i < |b| ==> StmtSound(b[i]);
  }

  lemma ElifsParts(elifs: seq<Elif>)
    requires ElifsSound(elifs)
    ensures ElifsNamed(elifs) && ElifsPrintable(elifs)
  {
    forall i | 0 <= i < |elifs|
      ensures Named(elifs[i].test) && BlockNamed(elifs[i].block)
      ensures Printable(elifs[i].test) && BlockPrintable(elifs[i].block)
    {
      assert ElifSound(elifs[i]);
      BlockParts(elifs[i].block);
    }
  }

  // ----- statements -----

  lemma {:induction false} BlockReads(stmts: seq<Stmt>, ts: seq<Token>, stop: Token)
    requires BlockSound(stmts) && FromLexer(ts)
    ensures ReadsBlock(Block(stmts, ts, stop))
    decreases |ts|, 30
  {
    hide StmtSound, FromLexer, Statement, SkipNewlines;
    var here := SkipNewlines(ts);
    LexedSkip(ts);
    if Peek(here) != stop {
      var stmt := Statement(here);
      StatementReads(here);
      if stmt.Ok? { BlockReads(stmts + [stmt.value], stmt.rest, stop); }
    }
  }

  lemma {:induction false} BracedReads(ts: seq<Token>)
    requires FromLexer(ts)
    ensures ReadsBlock(Braced(ts))
    decreases |ts|, 31
  {
    hide Block, FromLexer, BlockSound, SkipNewlines, Eat;
    LexedSkip(ts);
    LexedEat(SkipNewlines(ts), LBRACE);
    var open := Eat(SkipNewlines(ts), LBRACE);
    if open.Ok? {
      NothingIsSound();
      BlockReads([], open.rest, RBRACE);
      var body := Block([], open.rest, RBRACE);
      if body.Ok? { LexedEat(body.rest, RBRACE); }
    }
  }

  lemma NothingIsSound()
    ensures BlockSound([])
  {
  }

  lemma {:induction false} StatementReads(ts: seq<Token>)
    requires FromLexer(ts)
    ensures ReadsStmt(Statement(ts))
    decreases |ts|, 29
  {
    hide FromLexer, StmtSound, Simple, Let, If, For, Fn, Return, Try, Import;
    if ts != [] { LexedRest(ts); }
    match Peek(ts)
    case LET => LetReads(ts[1..]);
    case IF => IfReads(ts[1..]);
    case FOR => ForReads(ts[1..]);
    case FN => FnReads(ts[1..]);
    case RETURN => ReturnReads(ts[1..]);
    case TRY => TryReads(ts[1..]);
    case IMPORT => ImportReads(ts[1..]);
    case _ => SimpleReads(ts);
  }

  lemma {:induction false} SimpleReads(ts: seq<Token>)
    requires FromLexer(ts)
    ensures ReadsStmt(Simple(ts))
    decreases |ts|, 21
  {
    hide FromLexer, Named, Printable, Expression, SkipNewlines;
    var expr := Expression(ts);
    ExpressionReads(ts);
    if expr.Ok? {
      LexedSkip(expr.rest);
      if Peek(expr.rest) == ASSIGN {
        LexedRest(expr.rest);
        var value := Expression(expr.rest[1..]);
        ExpressionReads(expr.rest[1..]);
        if value.Ok? { LexedSkip(value.rest); }
      }
    }
  }

  lemma {:induction false} LetReads(ts: seq<Token>)
    requires FromLexer(ts)
    ensures ReadsStmt(Let(ts))
    decreases |ts|, 21
  {
    hide FromLexer, Named, Printable, IsIdent, Expression, SkipNewlines, EatIdent, Eat;
    LexedIdent(ts);
    var name := EatIdent(ts);
    if name.Ok? {
      LexedEat(name.rest, ASSIGN);
      var assign := Eat(name.rest, ASSIGN);
      if assign.Ok? {
        var value := Expression(assign.rest);
        ExpressionReads(assign.rest);
        if value.Ok? { LexedSkip(value.rest); }
      }
    }
  }

  lemma {:induction false} GuardedReads(ts: seq<Token>)
    requires FromLexer(ts)
    ensures var r := Guarded(ts); r.Ok? ==> ElifSound(r.value) && FromLexer(r.rest)
    decreases |ts|, 21
  {
    hide FromLexer, Sound, BlockSound, Expression, Braced;
    var cond := Expression(ts);
    ExpressionReads(ts);
    if cond.Ok? { BracedReads(cond.rest); }
  }

  lemma IfIsSound(first: Elif, elifs: seq<Elif>, els: Else)
    requires ElifSound(first) && ElifsSound(elifs) && (els.Else? ==> BlockSound(els.otherwise))
    ensures StmtSound(IfStmt(first.test, first.block, elifs, els))
  {
    BlockParts(first.block);
    ElifsParts(elifs);
    if els.Else? { BlockParts(els.otherwise); }
    hide Named, Printable, BlockNamed, BlockPrintable, ElifsNamed, ElifsPrintable;
  }

  lemma {:induction false} IfReads(ts: seq<Token>)
    requires FromLexer(ts)
    ensures ReadsStmt(If(ts))
    decreases |ts|, 22
  {
    hide FromLexer, ElifSound, ElifsSound, StmtSound, BlockSound, Guarded, Elifs, Braced, SkipNewlines;
    var first := Guarded(ts);
    GuardedReads(ts);
    if first.Ok? {
      LexedSkip(first.rest);
      NoElifsAreSound();
      ElifsRead([], SkipNewlines(first.rest));
      var more := Elifs([], SkipNewlines(first.rest));
      if more.Ok? {
        IfIsSound(first.value, more.value, NoElse);
        if Peek(more.rest) == ELSE {
          LexedRest(more.rest);
          BracedReads(more.rest[1..]);
          var els := Braced(more.rest[1..]);
          if els.Ok? { IfIsSound(first.value, more.value, Else(els.value)); }
        }
      }
    }
  }

  lemma NoElifsAreSound()
    ensures ElifsSound([])
  {
  }

  lemma {:induction false} ElifsRead(elifs: seq<Elif>, ts: seq<Token>)
    requires ElifsSound(elifs) && FromLexer(ts)
    ensures var r := Elifs(elifs, ts); r.Ok? ==> ElifsSound(r.value) && FromLexer(r.rest)
    decreases |ts|, 0
  {
    hide FromLexer, ElifSound, Guarded, SkipNewlines;
    if Peek(ts) == ELIF {
      LexedRest(ts);
      var next := Guarded(ts[1..]);
      GuardedReads(ts[1..]);
      if next.Ok? {
        LexedSkip(next.rest);
        ElifsRead(elifs + [next.value], SkipNewlines(next.rest));
      }
    }
  }

  lemma {:induction false} ForReads(ts: seq<Token>)
    requires FromLexer(ts)
    ensures ReadsStmt(For(ts))
    decreases |ts|, 22
  {
    hide FromLexer, Named, Printable, IsIdent, Guarded, EatIdent, Eat;
    hide BlockSound, BlockNamed, BlockPrintable;
    LexedIdent(ts);
    var name := EatIdent(ts);
    if name.Ok? {
      LexedEat(name.rest, IN);
      var keyword := Eat(name.rest, IN);
      if keyword.Ok? {
        GuardedReads(keyword.rest);
        var loop := Guarded(keyword.rest);
        if loop.Ok? { BlockParts(loop.value.block); }
      }
    }
  }

  lemma {:induction false} ParamsRead(ts: seq<Token>)
    requires FromLexer(ts)
    ensures var r := Params(ts); r.Ok? ==> FromLexer(r.rest) && forall p :: p in r.value ==> IsIdent(p)
    decreases |ts|, 1
  {
    hide FromLexer, IsIdent, EatIdent, MoreParams;
    if Peek(ts) != RPAREN {
      LexedIdent(ts);
      var first := EatIdent(ts);
      if first.Ok? { MoreParamsRead([first.value], first.rest); }
    }
  }

  lemma {:induction false} MoreParamsRead(params: seq<string>, ts: seq<Token>)
    requires FromLexer(ts) && forall p :: p in params ==> IsIdent(p)
    ensures var r := MoreParams(params, ts); r.Ok? ==> FromLexer(r.rest) && forall p :: p in r.value ==> IsIdent(p)
    decreases |ts|, 0
  {
    hide FromLexer, IsIdent, EatIdent;
    if Peek(ts) == COMMA {
      LexedRest(ts);
      LexedIdent(ts[1..]);
      var param := EatIdent(ts[1..]);
      if param.Ok? { MoreParamsRead(params + [param.value], param.rest); }
    }
  }

  lemma {:induction false} FnReads(ts: seq<Token>)
    requires FromLexer(ts)
    ensures ReadsStmt(Fn(ts))
    decreases |ts|, 22
  {
    hide FromLexer, IsIdent, Braced, Params, EatIdent, Eat, BlockSound, BlockNamed, BlockPrintable;
    LexedIdent(ts);
    var name := EatIdent(ts);
    if name.Ok? {
      LexedEat(name.rest, LPAREN);
      var open := Eat(name.rest, LPAREN);
      if open.Ok? {
        ParamsRead(open.rest);
        var params := Params(open.rest);
        if params.Ok? {
          LexedEat(params.rest, RPAREN);
          var close := Eat(params.rest, RPAREN);
          if close.Ok? {
            BracedReads(close.rest);
            var body := Braced(close.rest);
            if body.Ok? { BlockParts(body.value); }
          }
        }
      }
    }
  }

  lemma {:induction false} ReturnReads(ts: seq<Token>)
    requires FromLexer(ts)
    ensures ReadsStmt(Return(ts))
    decreases |ts|, 22
  {
    hide FromLexer, Named, Printable, Expression, SkipNewlines;
    LexedSkip(ts);
    if Peek(ts) !in {NEWLINE, RBRACE, EOF} {
      var value := Expression(ts);
      ExpressionReads(ts);
      if value.Ok? { LexedSkip(value.rest); }
    }
  }

  lemma {:induction false} TryReads(ts: seq<Token>)
    requires FromLexer(ts)
    ensures ReadsStmt(Try(ts))
    decreases |ts|, 32
  {
    hide FromLexer, IsIdent, Braced, SkipNewlines, EatIdent, Eat, BlockSound, BlockNamed, BlockPrintable;
    BracedReads(ts);
    var body := Braced(ts);
    if body.Ok? {
      BlockParts(body.value);
      LexedSkip(body.rest);
      LexedEat(SkipNewlines(body.rest), CATCH);
      var keyword := Eat(SkipNewlines(body.rest), CATCH);
      if keyword.Ok? {
        LexedIdent(keyword.rest);
        var name := EatIdent(keyword.rest);
        if name.Ok? {
          BracedReads(name.rest);
          var handler := Braced(name.rest);
          if handler.Ok? { BlockParts(handler.value); }
        }
      }
    }
  }

  lemma ImportReads(ts: seq<Token>)
    requires FromLexer(ts)
    ensures ReadsStmt(Import(ts))
  {
    hide FromLexer;
    if ts != [] {
      LexedRest(ts);
      LexedSkip(ts[1..]);
    }
  }

  // ----- what the lexer makes -----

  lemma {:induction false} NamePartsOf(s: string)
    ensures forall i :: 0 <= i < NameLength(s) ==> IsNamePart(s[i])
  {
    if s != [] && IsNamePart(s[0]) {
      NamePartsOf(s[1..]);
      forall i | 0 <= i < NameLength(s) ensures IsNamePart(s[i]) { if i > 0 { assert s[i] == s[1..][i - 1]; } }
    }
  }

  lemma {:induction false} NumberPartsOf(s: string)
    ensures forall i :: 0 <= i < NumberLength(s) ==> IsNumberPart(s[i])
  {
    if s != [] && IsNumberPart(s[0]) {
      NumberPartsOf(s[1..]);
      forall i | 0 <= i < NumberLength(s) ensures IsNumberPart(s[i]) { if i > 0 { assert s[i] == s[1..][i - 1]; } }
    }
  }

  lemma {:induction false} BeforeDotIs(s: string, n: nat)
    requires n < |s| && s[n] == '.' && forall i :: 0 <= i < n ==> s[i] != '.'
    ensures BeforeDot(s) == n
  {
    if n > 0 { BeforeDotIs(s[1..], n - 1); }
  }

  lemma WordIsSpellable(s: string)
    requires s != [] && IsNameStart(s[0])
    ensures Spellable(Word(s).value)
  {
    var n := NameLength(s);
    NamePartsOf(s);
    if n + 1 < |s| && s[n] == '.' && IsAlpha(s[n + 1]) {
      var m := n + 1 + NameLength(s[n + 1..]);
      DottedIsSpellable(s, n, m);
    }
    hide NameLength;
  }

  lemma DottedIsSpellable(s: string, n: nat, m: nat)
    requires 0 < n < |s| && IsNameStart(s[0]) && s[n] == '.' && n + 1 < |s| && IsAlpha(s[n + 1])
    requires m == n + 1 + NameLength(s[n + 1..]) && forall i :: 0 <= i < n ==> IsNamePart(s[i])
    ensures IsDotted(s[..m])
  {
    var after := s[n + 1..];
    NamePartsOf(after);
    assert NameLength(after) > 0;
    var word := s[..m];
    BeforeDotIs(word, n);
    assert word[..n] == s[..n] && word[n + 1..] == after[..m - n - 1];
  }

  lemma NumberIsSpellable(s: string)
    requires StartsNumber(s)
    ensures Spellable(NumberToken(s).value)
  {
    var n := 1 + NumberLength(s[1..]);
    NumberPartsOf(s[1..]);
    var text := s[..n];
    forall i | 1 <= i < n ensures IsNumberPart(text[i]) { assert text[i] == s[1..][i - 1]; }
    if s[0] == '-' { assert NumberLength(s[1..]) > 0; }
    hide NumberLength;
  }

  lemma FirstIsSpellable(s: string)
    requires s != []
    ensures First(s).Lexed? ==> Spellable(First(s).value)
  {
    if StartsNumber(s) {
      NumberIsSpellable(s);
    } else if IsNameStart(s[0]) {
      WordIsSpellable(s);
    }
    hide Word, NumberToken, IsNumeral, IsDotted, IsIdent;
  }

  lemma {:induction false} TokensAreFromLexer(s: string)
    ensures LexAll(s).Some? ==> FromLexer(LexAll(s).value)
    decreases |s|
  {
    hide First, Spellable;
    if s != [] {
      var first := First(s);
      if s[0] == '\n' {
        NewlineIsSpellable();
        TokensAreFromLexer(s[1..]);
      } else if IsSpace(s[0]) {
        TokensAreFromLexer(s[1..]);
      } else if s[0] == '#' {
        TokensAreFromLexer(s[1 + LineLength(s[1..])..]);
      } else if first.Lexed? {
        FirstIsSpellable(s);
        TokensAreFromLexer(first.rest);
      }
    }
  }

  lemma NewlineIsSpellable()
    ensures Spellable(NEWLINE)
  {
  }

  // ----- every program that parses -----

  /** Every program a text parses to has names that are names, and can be written down. */
  lemma ParsedProgramsAreSound(source: string, program: seq<Stmt>)
    requires ParseSource(source) == Some(program)
    ensures BlockNamed(program) && BlockPrintable(program)
  {
    var ts := LexAll(source).value;
    TokensAreFromLexer(source);
    NothingIsSound();
    BlockReads([], ts, EOF);
    BlockParts(program);
    hide Block, LexAll, FromLexer, BlockSound;
  }

  /** Writing out what a text parses to, in any style, gives a text that parses to the same program,
      whatever the text. */
  lemma FormattingKeepsTheProgram(style: Style, source: string, program: seq<Stmt>)
    requires ParseSource(source) == Some(program)
    ensures BlockPrintable(program) && ParseSource(SourceOf(style, program)) == Some(program)
  {
    ParsedProgramsAreSound(source, program);
    SourceInverts(style, program);
  }

  /** The programs that texts parse to are exactly those that can be written down. */
  lemma ParsedExactlyThePrintable(program: seq<Stmt>)
    ensures (exists source :: ParseSource(source) == Some(program)) <==> BlockNamed(program) && BlockPrintable(program)
  {
    if source :| ParseSource(source) == Some(program) { ParsedProgramsAreSound(source, program); }
    if BlockNamed(program) && BlockPrintable(program) { SourceInverts(TERSE, program); }
    hide ParseSource, BlockNamed, BlockPrintable;
  }

  /** All the styles of a program are texts of it: dollar signs where a bare name would do, needless
      parentheses, newlines where any number may stand, last commas and dashes change nothing. */
  lemma StylesAgree(style: Style, other: Style, program: seq<Stmt>)
    requires BlockPrintable(program) && BlockNamed(program)
    ensures ParseSource(SourceOf(style, program)) == ParseSource(SourceOf(other, program)) == Some(program)
  {
    SourceInverts(style, program);
    SourceInverts(other, program);
    hide ParseSource, SourceOf;
  }

  // ----- names with and without a dollar sign -----

  /** Every variable goes without its dollar sign where it can. */
  const PLAIN := TERSE.(bare := _ => true)

  /** `x = y + z` is read as an assignment to a variable of a sum of variables. */
  lemma BareNamesAreVariables(x: string, y: string, z: string)
    ensures Program([IDENT(x), ASSIGN, IDENT(y), PLUS, IDENT(z), EOF])
         == Ok([AssignStmt(VarRef(x), BinOp(VarRef(y), AddOp, VarRef(z)))], [])
  {
    var s := AssignStmt(VarRef(x), BinOp(VarRef(y), AddOp, VarRef(z)));
    PlainAssignment(x, y, z);
    ProgramInverts(PLAIN, [s]);
    hide Program, ProgramToks;
  }

  lemma PlainVariablePrinted(x: string, level: nat, rest: Tokens)
    requires level <= INDEXED && IsPlain(rest)
    ensures Printable(VarRef(x)) && Tok(PLAIN, VarRef(x), level, rest) == [IDENT(x)] + rest
  {
  }

  lemma PlainSum(y: string, z: string, rest: Tokens)
    requires Peek(rest) == EOF
    ensures var sum := BinOp(VarRef(y), AddOp, VarRef(z));
      Printable(sum) && Tok(PLAIN, sum, 0, rest) == [IDENT(y)] + ([PLUS] + ([IDENT(z)] + rest))
  {
    var plus := [PLUS] + ([IDENT(z)] + rest);
    PlainVariablePrinted(z, 4, rest);
    PlainVariablePrinted(y, 3, plus);
    assert RightTok(PLAIN, VarRef(y), AddOp, VarRef(z), rest) == Tok(PLAIN, VarRef(z), 4, rest);
    assert LeftLevel(AddOp) == 3 && OpToken(AddOp) == PLUS;
    hide IsPlain;
  }

  lemma PlainAssignment(x: string, y: string, z: string)
    ensures var program := [AssignStmt(VarRef(x), BinOp(VarRef(y), AddOp, VarRef(z)))];
      BlockPrintable(program)
      && ProgramToks(PLAIN, program) == [IDENT(x), ASSIGN, IDENT(y), PLUS, IDENT(z), EOF]
  {
    var s := AssignStmt(VarRef(x), BinOp(VarRef(y), AddOp, VarRef(z)));
    var assign := [ASSIGN] + ([IDENT(y)] + ([PLUS] + ([IDENT(z)] + [EOF])));
    PlainSum(y, z, [EOF]);
    PlainVariablePrinted(x, 0, assign);
    hide Tok, Formed, Hangs;
    assert [s][1..] == [] && BlockToks(PLAIN, [], [EOF]) == [EOF];
    assert StmtEnd(PLAIN, [EOF]) == [EOF];
    assert StmtToks(PLAIN, s, [EOF]) == [IDENT(x)] + assign;
    assert BlockToks(PLAIN, [s], [EOF]) == [IDENT(x)] + assign;
  }

  // ----- comparisons -----

  /** Of two comparisons in a row only the first is taken. */
  lemma ComparisonsDoNotChain(style: Style, a: Expr, op: BinaryOp, b: Expr, next: BinaryOp, rest: seq<Token>)
    requires Printable(a) && Printable(b) && OpLevel(op) == OpLevel(next) == COMPARE
    ensures var after := [OpToken(next)] + rest;
      Expression(Tok(style, a, 3, [OpToken(op)] + Tok(style, b, 3, after))) == Ok(BinOp(a, op, b), after)
  {
    assert Formed(a) && Formed(b);
    hide *;
    var after := [OpToken(next)] + rest;
    var right := Tok(style, b, 3, after);
    var more := [OpToken(op)] + right;
    var ts, e := Tok(style, a, 3, more), BinOp(a, op, b);
    OperandRead(style, a, op, right);
    OperandRead(style, b, next, rest);
    ComparisonRead(ts, e, more, after, next);
  }

  /** Before a comparison an operand is read whole. */
  lemma OperandRead(style: Style, e: Expr, op: BinaryOp, rest: seq<Token>)
    requires Printable(e) && OpLevel(op) == COMPARE
    ensures Ladder(3, Tok(style, e, 3, [OpToken(op)] + rest)) == Ok(e, [OpToken(op)] + rest)
  {
    var more := [OpToken(op)] + rest;
    RankOf(op);
    hide Tok, Formed, Hangs, Ladder, Climb, OpLevel, OpToken;
    Invert(style, 3, e, more);
    QuietStopsClimb(3, e, more);
  }

  lemma ComparisonRead(ts: seq<Token>, e: Expr, more: seq<Token>, after: seq<Token>, next: BinaryOp)
    requires e.BinOp? && OpLevel(e.op) == OpLevel(next) == COMPARE
    requires Ladder(3, ts) == Ok(e.left, more) && more != [] && more[0] == OpToken(e.op)
    requires Ladder(3, more[1..]) == Ok(e.right, after) && after != [] && after[0] == OpToken(next)
    ensures Expression(ts) == Ok(e, after)
  {
    LooserLevelsPass(next, after);
    hide Ladder, Climb, OpLevel, OpToken, OpAt;
    ClimbTakes(COMPARE, e, more, after);
    LadderFrom(2, ts, e.left, more);
    ClimbPasses(1, e, after);
    LadderFrom(1, ts, e, after);
    ClimbPasses(0, e, after);
    LadderFrom(0, ts, e, after);
  }

  lemma LooserLevelsPass(op: BinaryOp, after: seq<Token>)
    requires OpLevel(op) == COMPARE && after != [] && after[0] == OpToken(op)
    ensures OpAt(1, Peek(after)).None? && OpAt(0, Peek(after)).None?
  {
  }

  lemma ClimbPasses(level: nat, e: Expr, after: seq<Token>)
    requires level < UNARY && OpAt(level, Peek(after)).None?
    ensures Climb(level, e, after) == Ok(e, after)
  {
    hide OpAt;
  }

  lemma RankOf(op: BinaryOp)
    ensures forall rest :: Rank(Peek([OpToken(op)] + rest)) == OpLevel(op)
  {
  }

  lemma LadderFrom(level: nat, ts: seq<Token>, e: Expr, after: seq<Token>)
    requires level < UNARY && Ladder(level + 1, ts) == Ok(e, after)
    ensures Ladder(level, ts) == Climb(level, e, after)
  {
    hide Climb, Unary;
  }

  /** So no program that begins with a chained comparison is accepted. */
  lemma ChainedComparisonIsRefused(style: Style, a: Expr, op: BinaryOp, b: Expr, next: BinaryOp, rest: seq<Token>)
    requires Printable(a) && Printable(b) && OpLevel(op) == OpLevel(next) == COMPARE
    ensures !Program(Tok(style, a, 3, [OpToken(op)] + Tok(style, b, 3, [OpToken(next)] + rest))).Ok?
  {
    assert Formed(a) && Formed(b);
    hide *;
    var after := [OpToken(next)] + rest;
    var more := [OpToken(op)] + Tok(style, b, 3, after);
    var ts, e := Tok(style, a, 3, more), BinOp(a, op, b);
    ComparisonsDoNotChain(style, a, op, b, next, rest);
    TokHead(style, a, 3, more);
    NothingBeginsWith(next, rest);
    SimpleStatement(ts);
    ExprStmtFrom(ts, e, after);
    BlockFails(ts, e, after);
  }

  lemma BlockFails(ts: seq<Token>, e: Expr, after: seq<Token>)
    requires ts != [] && IsStart(ts[0]) && Statement(ts) == Ok(ExprStmt(e), after)
    requires !Statement(after).Ok? && SkipNewlines(after) == after && Peek(after) != EOF
    ensures !Program(ts).Ok?
  {
    hide Statement;
    assert !Block([] + [ExprStmt(e)], after, EOF).Ok?;
    assert Block([], ts, EOF) == Block([] + [ExprStmt(e)], after, EOF);
  }

  lemma NothingBeginsWith(op: BinaryOp, rest: seq<Token>)
    requires OpLevel(op) == COMPARE
    ensures var ts := [OpToken(op)] + rest;
      !Statement(ts).Ok? && SkipNewlines(ts) == ts && Peek(ts) != ASSIGN && Peek(ts) != EOF
  {
    var ts := [OpToken(op)] + rest;
    assert !Primary(ts).Ok?;
    assert !Unary(ts).Ok?;
    hide Primary, Unary, Climb;
    assert !Ladder(4, ts).Ok?;
    assert !Ladder(2, ts).Ok?;
    assert !Ladder(0, ts).Ok?;
    hide Ladder;
    assert Statement(ts) == Simple(ts);
  }

  // ----- a name before a minus -----

  /** `x - ( null - null )`. */
  const BARE := [IDENT("x"), MINUS, LPAREN, NULL, MINUS, NULL, RPAREN]

  const LONE := PipelineExpr([Command("x", [])])

  const INNER := BinOp(NullLit, SubOp, NullLit)

  /** A name before a minus that begins no argument is a command without arguments, not a variable:
      its difference and the variable's are written differently and parse to different trees. */
  lemma BareNameBeforeMinusIsACommand()
    ensures ParseSource(Text(BARE)) == Some([ExprStmt(BinOp(LONE, SubOp, INNER))])
    ensures ParseSource(Text([DOLLAR] + BARE)) == Some([ExprStmt(BinOp(VarRef("x"), SubOp, INNER))])
  {
    hide *;
    LoneDifference();
    VariableDifference();
    BareIsSpellable();
    TextParses(BARE, BinOp(LONE, SubOp, INNER));
    TextParses([DOLLAR] + BARE, BinOp(VarRef("x"), SubOp, INNER));
  }

  lemma BareIsSpellable()
    ensures forall i :: 0 <= i < |BARE| ==> Spellable(BARE[i])
    ensures forall i :: 0 <= i < |[DOLLAR] + BARE| ==> Spellable(([DOLLAR] + BARE)[i])
    ensures BARE[0].IDENT?
    ensures ([DOLLAR] + BARE) + [EOF] == [DOLLAR] + (BARE + [EOF])
  {
  }

  /** A text of one expression. */
  lemma TextParses(ts: seq<Token>, e: Expr)
    requires ts != [] && (ts[0] == DOLLAR || ts[0].IDENT?) && forall i :: 0 <= i < |ts| ==> Spellable(ts[i])
    requires Expression(ts + [EOF]) == Ok(e, [EOF])
    ensures ParseSource(Text(ts)) == Some([ExprStmt(e)])
  {
    hide Expression, Text, LexAll, Spellable, Program;
    SpellingInverts(ts);
    ProgramOf(ts + [EOF], e);
  }

  lemma ProgramOf(ts: seq<Token>, e: Expr)
    requires |ts| > 1 && (ts[0] == DOLLAR || ts[0].IDENT?) && Expression(ts) == Ok(e, [EOF])
    ensures Program(ts) == Ok([ExprStmt(e)], [])
  {
    hide Expression, Let, If, For, Fn, Return, Try, Import;
    assert Simple(ts) == Ok(ExprStmt(e), [EOF]);
    assert Statement(ts) == Ok(ExprStmt(e), [EOF]);
    assert Block([ExprStmt(e)], [EOF], EOF) == Ok([ExprStmt(e)], [EOF]);
    assert Block([], ts, EOF) == Block([] + [ExprStmt(e)], [EOF], EOF);
    assert [] + [ExprStmt(e)] == [ExprStmt(e)];
  }

  /** The inner difference in its parentheses, at the end of a text. */
  lemma InnerPrinted()
    ensures Printable(INNER) && Bare(TERSE, INNER, [RPAREN, EOF]) == [NULL, MINUS, NULL, RPAREN, EOF]
  {
  }

  lemma LoneDifference()
    ensures Expression(BARE + [EOF]) == Ok(BinOp(LONE, SubOp, INNER), [EOF])
  {
    InnerPrinted();
    LonePrinted();
    ExpressionInverts(TERSE, BinOp(LONE, SubOp, INNER), [EOF]);
    hide Expression, Tok, Printable;
  }

  lemma LonePrinted()
    ensures Printable(BinOp(LONE, SubOp, INNER)) && Tok(TERSE, BinOp(LONE, SubOp, INNER), 0, [EOF]) == BARE + [EOF]
  {
    InnerPrinted();
    assert CommandsPrintable(LONE.commands);
    var right := [LPAREN] + Bare(TERSE, INNER, [RPAREN, EOF]);
    assert Tok(TERSE, LONE, LeftLevel(SubOp), [MINUS] + right) == [IDENT("x")] + ([MINUS] + right);
  }

  lemma VariableDifference()
    ensures Expression([DOLLAR] + (BARE + [EOF])) == Ok(BinOp(VarRef("x"), SubOp, INNER), [EOF])
  {
    InnerPrinted();
    var e := BinOp(VarRef("x"), SubOp, INNER);
    assert Tok(TERSE, e, 0, [EOF]) == [DOLLAR] + (BARE + [EOF]);
    ExpressionInverts(TERSE, e, [EOF]);
    hide Expression, Tok;
  }
}
