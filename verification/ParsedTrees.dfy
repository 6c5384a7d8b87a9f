/** Which trees the parser makes: every tree read from lexed tokens can be written down again. */
module ParsedTrees {
  import opened Wrappers
  import opened Syntax
  import opened Grammar
  import opened Printer
  import opened Lexer
  import opened SourceInversion
  import opened Inversion
  import P = Parser

  // ----- sound trees -----

  /** The names are names, and the tree can be written down. */
  ghost predicate Sound(e: Expr) {
    Named(e) && Printable(e)
  }

  ghost predicate AllSound(es: seq<Expr>) {
    forall i | 0 <= i < |es| :: Sound(es[i])
  }

  ghost predicate PairSound(pair: Pair) {
    IsIdent(pair.key) && Sound(pair.val)
  }

  ghost predicate PairsSound(pairs: seq<Pair>) {
    forall i | 0 <= i < |pairs| :: PairSound(pairs[i])
  }

  ghost predicate CommandSound(c: Command) {
    CommandNamed(c.cmd) && AllSound(c.cmdArgs)
  }

  ghost predicate StmtSound(s: Stmt) {
    StmtNamed(s) && StmtPrintable(s)
  }

  ghost predicate BlockSound(b: seq<Stmt>) {
    forall i | 0 <= i < |b| :: StmtSound(b[i])
  }

  ghost predicate ElifSound(e: Elif) {
    Sound(e.test) && BlockSound(e.block)
  }

  /** Tokens as the lexer makes them. */
  ghost predicate FromLexer(ts: seq<Token>) {
    forall i | 0 <= i < |ts| :: ts[i] == EOF || Spellable(ts[i])
  }

  /** What is read is sound, and what is left is lexed. */
  ghost predicate Reads(r: Parsed<Expr>) {
    r.Ok? ==> Sound(r.value) && FromLexer(r.rest)
  }

  ghost predicate ReadsAll(r: Parsed<seq<Expr>>) {
    r.Ok? ==> AllSound(r.value) && FromLexer(r.rest)
  }

  lemma LexedRest(ts: seq<Token>)
    requires FromLexer(ts) && ts != []
    ensures FromLexer(ts[1..])
  {
  }

  lemma {:induction false} LexedSkip(ts: seq<Token>)
    requires FromLexer(ts)
    ensures FromLexer(SkipNewlines(ts))
    decreases |ts|
  {
    if ts != [] && ts[0] == NEWLINE { LexedSkip(ts[1..]); }
  }

  lemma LexedEat(ts: seq<Token>, t: Token)
    requires FromLexer(ts)
    ensures var r := Eat(ts, t); r.Ok? ==> FromLexer(r.rest)
  {
  }

  lemma LexedIdent(ts: seq<Token>)
    requires FromLexer(ts)
    ensures var r := EatIdent(ts); r.Ok? ==> FromLexer(r.rest) && IsIdent(r.value)
  {
    if ts != [] { assert ts[0] == EOF || Spellable(ts[0]); }
  }

  // ----- making sound trees -----

  /** A tree that is sound but that it may end with a lone command, which must fit its place and have
      its minus after it. */
  ghost predicate SoundBefore(level: int, e: Expr, rest: seq<Token>) {
    Named(e) && Formed(e) && (Hangs(e) ==> Level(e) >= level && Dangles(rest))
  }

  lemma BinaryIsSound(level: nat, l: Expr, op: BinaryOp, r: Expr, ts: seq<Token>, rest: seq<Token>)
    requires OpLevel(op) == level && SoundBefore(level, l, ts) && SoundBefore(level + 1, r, rest)
    requires Peek(ts) == OpToken(op) && (IsLoneExpr(r) ==> Peek(ts[1..]).IDENT?)
    ensures SoundBefore(level, BinOp(l, op, r), rest)
  {
    hide IsLone, Dotted;
  }

  lemma PrefixIsSound(op: PrefixOp, e: Expr, rest: seq<Token>)
    requires SoundBefore(UNARY, e, rest)
    ensures SoundBefore(UNARY, UnaryOp(op, e), rest)
  {
  }

  lemma SoundAnywhere(level: int, e: Expr, rest: seq<Token>)
    requires Sound(e)
    ensures SoundBefore(level, e, rest) && !IsLoneExpr(e)
  {
  }

  /** What ends where no minus follows ends with no lone command. */
  lemma SoundAtLast(level: int, e: Expr, rest: seq<Token>)
    requires SoundBefore(level, e, rest) && Peek(rest) != MINUS
    ensures Sound(e)
  {
  }

  lemma IndexIsSound(obj: Expr, index: Expr)
    requires Sound(obj) && Sound(index)
    ensures Sound(IndexExpr(obj, index))
  {
  }

  lemma ListIsSound(es: seq<Expr>)
    requires AllSound(es)
    ensures AllNamed(es) && AllPrintable(es) && Sound(ListLit(es))
  {
    forall i | 0 <= i < |es| ensures Named(es[i]) && Formed(es[i]) && !Hangs(es[i]) { assert Sound(es[i]); }
    assert AllPrintable(es);
    assert Formed(ListLit(es));
  }

  lemma CallIsSound(name: string, es: seq<Expr>)
    requires IsIdent(name) && AllSound(es)
    ensures Sound(FnCallExpr(name, es))
  {
    ListIsSound(es);
  }

  lemma MapIsSound(pairs: seq<Pair>)
    requires PairsSound(pairs)
    ensures Sound(MapLit(pairs))
  {
    forall i | 0 <= i < |pairs| ensures Printable(pairs[i].val) { assert PairSound(pairs[i]); }
    assert PairsPrintable(pairs);
    forall i | 0 <= i < |pairs| ensures IsIdent(pairs[i].key) && Named(pairs[i].val) { assert PairSound(pairs[i]); }
  }

  lemma LiteralIsSound(e: Expr)
    requires e.StringLit? || e.BoolLit? || e.NullLit?
    ensures Sound(e)
  {
  }

  lemma NumberIsSound(text: string)
    requires IsNumeral(text) && ReadNumber(text).Some?
    ensures Sound(NumberLit(ReadNumber(text).value))
  {
    assert Writable(ReadNumber(text).value);
  }

  lemma NegatedNumberIsSound(text: string)
    requires IsNumeral(text) && ReadNumber(text).Some?
    ensures Sound(NumberLit(Negate(ReadNumber(text).value)))
  {
    var other := if text[0] == '-' then text[1..] else "-" + text;
    assert other[0] == '-' ==> other[1..] == text;
    assert IsNumeral(other) && ReadNumber(other) == Some(Negate(ReadNumber(text).value));
    NumberIsSound(other);
  }

  // ----- expressions -----

  /** What a tight level of the ladder reads: only a bare name reads as a lone command. */
  ghost predicate ReadsAt(level: int, ts: seq<Token>, r: Parsed<Expr>) {
    r.Ok? ==>
      && SoundBefore(level, r.value, r.rest) && FromLexer(r.rest)
      && (IsLoneExpr(r.value) ==> Peek(ts).IDENT?)
  }

  lemma SoundReads(level: int, ts: seq<Token>, r: Parsed<Expr>)
    requires Reads(r)
    ensures ReadsAt(level, ts, r)
  {
    if r.Ok? { SoundAnywhere(level, r.value, r.rest); }
  }

  const SUM := 3

  lemma {:induction false} ExpressionReads(ts: seq<Token>)
    requires FromLexer(ts)
    ensures Reads(Expression(ts))
    decreases |ts|, 20
  {
    LadderReads(0, ts);
  }

  lemma {:induction false} LadderReads(level: nat, ts: seq<Token>)
    requires level <= UNARY && FromLexer(ts)
    ensures ReadsAt(level, ts, Ladder(level, ts))
    ensures level <= SUM ==> Reads(Ladder(level, ts))
    decreases |ts|, 10 + UNARY - level
  {
    hide SoundBefore, Sound, FromLexer, Climb, Unary, IsLoneExpr;
    if level == UNARY {
      UnaryReads(ts);
    } else {
      var left := Ladder(level + 1, ts);
      LadderReads(level + 1, ts);
      if left.Ok? {
        if level < SUM {
          SoundAnywhere(level, left.value, left.rest);
        } else {
          LooserPlace(level, left.value, left.rest);
        }
        ClimbReads(level, left.value, left.rest);
        if level <= SUM { SoundReads(level, ts, Ladder(level, ts)); }
      }
    }
  }

  lemma LooserPlace(level: int, e: Expr, rest: seq<Token>)
    requires SoundBefore(level + 1, e, rest)
    ensures SoundBefore(level, e, rest)
  {
  }

  lemma {:induction false} ClimbReads(level: nat, left: Expr, ts: seq<Token>)
    requires level < UNARY && SoundBefore(level, left, ts) && FromLexer(ts) && (level < SUM ==> Sound(left))
    ensures var r := Climb(level, left, ts);
      r.Ok? ==>
        && FromLexer(r.rest) && SoundBefore(level, r.value, r.rest)
        && (level <= SUM ==> Sound(r.value))
        && (IsLoneExpr(r.value) ==> r.value == left)
    decreases |ts|, 20
  {
    hide SoundBefore, Sound, FromLexer, Ladder;
    var op := OpAt(level, Peek(ts));
    if op.Some? && ts != [] {
      LexedRest(ts);
      var right := Ladder(level + 1, ts[1..]);
      LadderReads(level + 1, ts[1..]);
      if right.Ok? {
        BinaryIsSound(level, left, op.value, right.value, ts, right.rest);
        var e := BinOp(left, op.value, right.value);
        if level < SUM { SoundBinary(left, op.value, right.value); }
        if level != COMPARE { ClimbReads(level, e, right.rest); }
      }
    } else if level == SUM {
      NothingHangsAfterSums(left, ts);
    }
  }

  lemma NothingHangsAfterSums(left: Expr, ts: seq<Token>)
    requires SoundBefore(SUM, left, ts) && (OpAt(SUM, Peek(ts)).None? || ts == [])
    ensures Sound(left)
  {
    SoundAtLast(SUM, left, ts);
  }

  lemma SoundBinary(l: Expr, op: BinaryOp, r: Expr)
    requires Sound(l) && Sound(r)
    ensures Sound(BinOp(l, op, r))
  {
  }

  lemma {:induction false} UnaryReads(ts: seq<Token>)
    requires FromLexer(ts)
    ensures ReadsAt(UNARY, ts, Unary(ts))
    decreases |ts|, 9
  {
    hide SoundBefore, FromLexer, Postfix;
    if ts != [] && (ts[0] == NOT || ts[0] == MINUS) {
      LexedRest(ts);
      var operand := Unary(ts[1..]);
      UnaryReads(ts[1..]);
      if operand.Ok? { PrefixIsSound(if ts[0] == NOT then NotOp else NegOp, operand.value, operand.rest); }
    } else {
      PostfixReads(ts);
    }
  }

  lemma {:induction false} PostfixReads(ts: seq<Token>)
    requires FromLexer(ts)
    ensures ReadsAt(UNARY, ts, Postfix(ts))
    decreases |ts|, 8
  {
    hide FromLexer, Primary, Indexes, Named, Formed;
    var expr := Primary(ts);
    PrimaryReads(ts);
    if expr.Ok? {
      if Hangs(expr.value) {
        IndexesNeedABracket(expr.value, expr.rest);
      } else {
        IndexesRead(expr.value, expr.rest);
        SoundReads(UNARY, ts, Indexes(expr.value, expr.rest));
      }
    }
  }

  lemma IndexesNeedABracket(e: Expr, ts: seq<Token>)
    requires Peek(ts) != LBRACKET
    ensures Indexes(e, ts) == Ok(e, ts)
  {
  }

  lemma {:induction false} IndexesRead(e: Expr, ts: seq<Token>)
    requires Sound(e) && FromLexer(ts)
    ensures Reads(Indexes(e, ts))
    ensures IsPlace(e) && Indexes(e, ts).Ok? ==> IsPlace(Indexes(e, ts).value)
    ensures Indexes(e, ts).Ok? ==> Peek(Indexes(e, ts).rest) != LBRACKET
    decreases |ts|, 0
  {
    hide Sound, FromLexer, Expression;
    if Peek(ts) == LBRACKET {
      LexedRest(ts);
      var index := Expression(ts[1..]);
      ExpressionReads(ts[1..]);
      if index.Ok? {
        LexedEat(index.rest, RBRACKET);
        var close := Eat(index.rest, RBRACKET);
        if close.Ok? {
          IndexIsSound(e, index.value);
          IndexesRead(IndexExpr(e, index.value), close.rest);
        }
      }
    }
  }

  lemma {:induction false} PrimaryReads(ts: seq<Token>)
    requires FromLexer(ts)
    ensures ReadsAt(PRIMARY, ts, Primary(ts))
    decreases |ts|, 7
  {
    if ts == [] { return; }
    LexedRest(ts);
    assert ts[0] == EOF || Spellable(ts[0]);
    hide FromLexer, Reads, ReadsAt, CommandOrVar, IsIdent, IsDotted, IsNumeral;
    if ts[0].IDENT? {
      NameReads(ts);
    } else {
      OtherPrimaryReads(ts);
      SoundReads(PRIMARY, ts, Primary(ts));
    }
  }

  lemma {:induction false} NameReads(ts: seq<Token>)
    requires FromLexer(ts) && ts != [] && ts[0].IDENT? && IsIdent(ts[0].name)
    ensures ReadsAt(PRIMARY, ts, Primary(ts))
    decreases |ts|, 6
  {
    hide FromLexer, SoundBefore, Sound, CommandOrVar, Call, IsIdent, IsLoneExpr;
    LexedRest(ts);
    var name, rest := ts[0].name, ts[1..];
    if Peek(rest) == LPAREN {
      CallReads(name, rest);
      SoundReads(PRIMARY, ts, Call(name, rest));
    } else {
      CommandOrVarReads(name, rest);
    }
  }

  lemma {:induction false} OtherPrimaryReads(ts: seq<Token>)
    requires FromLexer(ts) && ts != [] && !ts[0].IDENT? && (ts[0] == EOF || Spellable(ts[0]))
    ensures Reads(Primary(ts))
    decreases |ts|, 6
  {
    LexedRest(ts);
    var rest := ts[1..];
    hide FromLexer, Sound, Expression, ListBody, MapBody, Variable, CommandFrom, IsDotted, IsNumeral, ReadNumber;
    match ts[0]
    case STRING(s) => LiteralIsSound(StringLit(s));
    case TRUE => LiteralIsSound(BoolLit(true));
    case FALSE => LiteralIsSound(BoolLit(false));
    case NULL => LiteralIsSound(NullLit);
    case NUMBER(s) => if ReadNumber(s).Some? { NumberIsSound(s); }
    case LBRACKET => ListReads(rest);
    case LBRACE => MapReads(rest);
    case LPAREN =>
      ExpressionReads(rest);
      if Expression(rest).Ok? { LexedEat(Expression(rest).rest, RPAREN); }
    case DOLLAR => VariableReads(rest);
    case DOTTED(name) => DottedReads(name, rest);
    case _ =>
  }

  lemma {:induction false} DottedReads(name: string, ts: seq<Token>)
    requires FromLexer(ts) && IsDotted(name)
    ensures Reads(CommandFrom(name, ts))
    decreases |ts|, 5
  {
    hide FromLexer, SoundBefore, CommandFrom, IsDotted;
    DottedHasADot(name);
    CommandReads(name, ts);
  }

  lemma DottedHasADot(name: string)
    requires IsDotted(name)
    ensures Dotted(name) && CommandNamed(name)
  {
    BeforeDotEnds(name);
  }

  lemma IdentHasNoDot(name: string)
    requires IsIdent(name)
    ensures !Dotted(name) && CommandNamed(name)
  {
  }

  lemma {:induction false} VariableReads(ts: seq<Token>)
    requires FromLexer(ts)
    ensures Reads(Variable(ts))
    ensures var r := Variable(ts); r.Ok? ==> IsPlace(r.value) && Peek(r.rest) != LBRACKET
    decreases |ts|, 1
  {
    hide FromLexer, Indexes, IsIdent, EatIdent;
    LexedIdent(ts);
    var name := EatIdent(ts);
    if name.Ok? {
      assert Sound(VarRef(name.value));
      IndexesRead(VarRef(name.value), name.rest);
    }
  }


  // ----- lists, maps and calls -----

  lemma {:induction false} MoreArgsRead(args: seq<Expr>, ts: seq<Token>)
    requires AllSound(args) && FromLexer(ts)
    ensures ReadsAll(MoreArgs(args, ts))
    decreases |ts|, 0
  {
    hide Sound, FromLexer, Expression;
    if Peek(ts) == COMMA {
      LexedRest(ts);
      var arg := Expression(ts[1..]);
      ExpressionReads(ts[1..]);
      if arg.Ok? { MoreArgsRead(args + [arg.value], arg.rest); }
    }
  }

  lemma {:induction false} CallArgsRead(ts: seq<Token>)
    requires FromLexer(ts)
    ensures ReadsAll(CallArgs(ts))
    decreases |ts|, 21
  {
    hide Sound, FromLexer, Expression, MoreArgs;
    var first := Expression(ts);
    if Peek(ts) != RPAREN {
      ExpressionReads(ts);
      if first.Ok? { MoreArgsRead([first.value], first.rest); }
    }
  }

  lemma {:induction false} ListReads(ts: seq<Token>)
    requires FromLexer(ts)
    ensures Reads(ListBody(ts))
    ensures ListBody(ts).Ok? ==> ListBody(ts).value.ListLit?
    decreases |ts|, 22
  {
    hide Sound, AllSound, FromLexer, ListItems, SkipNewlines, Eat;
    LexedSkip(ts);
    var items := ListItems(SkipNewlines(ts));
    ListItemsRead(SkipNewlines(ts));
    if items.Ok? {
      LexedSkip(items.rest);
      LexedEat(SkipNewlines(items.rest), RBRACKET);
      ListIsSound(items.value);
    }
  }

  lemma {:induction false} ListItemsRead(ts: seq<Token>)
    requires FromLexer(ts)
    ensures ReadsAll(ListItems(ts))
    decreases |ts|, 21
  {
    hide Sound, FromLexer, Expression, MoreItems;
    var first := Expression(ts);
    if Peek(ts) != RBRACKET {
      ExpressionReads(ts);
      if first.Ok? { MoreItemsRead([first.value], first.rest); }
    }
  }

  lemma {:induction false} MoreItemsRead(items: seq<Expr>, ts: seq<Token>)
    requires AllSound(items) && FromLexer(ts)
    ensures ReadsAll(MoreItems(items, ts))
    decreases |ts|, 0
  {
    hide Sound, FromLexer, Expression, SkipNewlines;
    if Peek(ts) == COMMA {
      LexedRest(ts);
      var after := SkipNewlines(ts[1..]);
      LexedSkip(ts[1..]);
      if Peek(after) != RBRACKET {
        var item := Expression(after);
        ExpressionReads(after);
        if item.Ok? { MoreItemsRead(items + [item.value], item.rest); }
      }
    }
  }

  lemma {:induction false} MapReads(ts: seq<Token>)
    requires FromLexer(ts)
    ensures Reads(MapBody(ts))
    decreases |ts|, 23
  {
    hide Sound, PairsSound, FromLexer, MapPairs, SkipNewlines, Eat;
    LexedSkip(ts);
    var pairs := MapPairs(SkipNewlines(ts));
    MapPairsRead(SkipNewlines(ts));
    if pairs.Ok? {
      LexedSkip(pairs.rest);
      LexedEat(SkipNewlines(pairs.rest), RBRACE);
      MapIsSound(pairs.value);
    }
  }

  lemma {:induction false} MapPairsRead(ts: seq<Token>)
    requires FromLexer(ts)
    ensures var r := MapPairs(ts); r.Ok? ==> PairsSound(r.value) && FromLexer(r.rest)
    decreases |ts|, 22
  {
    hide PairSound, FromLexer, MapPair, MorePairs;
    var first := MapPair(ts);
    if Peek(ts) != RBRACE {
      MapPairReads(ts);
      if first.Ok? { MorePairsRead([first.value], first.rest); }
    }
  }

  lemma {:induction false} MapPairReads(ts: seq<Token>)
    requires FromLexer(ts)
    ensures var r := MapPair(ts); r.Ok? ==> PairSound(r.value) && FromLexer(r.rest)
    decreases |ts|, 21
  {
    hide Sound, IsIdent, FromLexer, Expression, EatIdent, Eat;
    var key := EatIdent(ts);
    LexedIdent(ts);
    if key.Ok? {
      var colon := Eat(key.rest, COLON);
      LexedEat(key.rest, COLON);
      if colon.Ok? { ExpressionReads(colon.rest); }
    }
  }

  lemma {:induction false} MorePairsRead(pairs: seq<Pair>, ts: seq<Token>)
    requires PairsSound(pairs) && FromLexer(ts)
    ensures var r := MorePairs(pairs, ts); r.Ok? ==> PairsSound(r.value) && FromLexer(r.rest)
    decreases |ts|, 0
  {
    hide PairSound, FromLexer, MapPair, SkipNewlines;
    if Peek(ts) == COMMA {
      LexedRest(ts);
      var after := SkipNewlines(ts[1..]);
      LexedSkip(ts[1..]);
      if Peek(after) != RBRACE {
        var pair := MapPair(after);
        MapPairReads(after);
        if pair.Ok? { MorePairsRead(pairs + [pair.value], pair.rest); }
      }
    }
  }

  // ----- commands and pipelines -----

  /** Arguments read so far, and what may come after the last of them: no index after a variable, no
      pipe after a call, and neither a pipe nor another argument after a pipeline. */
  ghost predicate Row(args: seq<Expr>, ts: seq<Token>) {
    && AllSound(args) && FromLexer(ts)
    && (forall i | 0 <= i < |args| :: IsArg(args[i]) || (i == |args| - 1 && IsCallPipeline(args[i])))
    && (forall i | 0 <= i < |args| - 1 :: IsPlace(args[i]) ==> !args[i + 1].ListLit?)
    && (args != [] ==> Ends(args[|args| - 1], ts))
  }

  ghost predicate Ends(arg: Expr, ts: seq<Token>) {
    && (IsPlace(arg) ==> Peek(ts) != LBRACKET)
    && (arg.FnCallExpr? ==> Peek(ts) != PIPE)
    && (arg.PipelineExpr? ==> Peek(ts) != PIPE && !P.StartsArg(ts))
  }

  /** One more argument, unless the last one was a pipeline. */
  lemma RowGrows(args: seq<Expr>, ts: seq<Token>, arg: Expr, rest: seq<Token>)
    requires Row(args, ts) && P.StartsArg(ts) && ts != []
    requires Sound(arg) && (IsArg(arg) || IsCallPipeline(arg)) && Ends(arg, rest) && FromLexer(rest)
    requires arg.ListLit? ==> ts[0] == LBRACKET
    ensures Row(args + [arg], rest)
  {
    hide Sound, FromLexer, IsArg, IsCallPipeline, P.StartsArg;
    var grown := args + [arg];
    forall i | 0 <= i < |grown| ensures IsArg(grown[i]) || (i == |grown| - 1 && IsCallPipeline(grown[i])) {
      if i == |args| - 1 { PipelinesAreNoArgs(args[i]); }
    }
    if args != [] { assert args[|args| - 1] == grown[|grown| - 2]; }
  }

  lemma PipelinesAreNoArgs(e: Expr)
    ensures IsCallPipeline(e) ==> e.PipelineExpr?
  {
  }

  /** What one argument turns out to be. */
  ghost predicate ArgRead(ts: seq<Token>, r: Parsed<Expr>) {
    r.Ok? ==>
      && Sound(r.value) && FromLexer(r.rest) && |r.rest| < |ts|
      && (IsArg(r.value) || IsCallPipeline(r.value)) && Ends(r.value, r.rest)
      && (r.value.ListLit? ==> Peek(ts) == LBRACKET)
      && (r.value.BoolLit? ==> Peek(ts) in {TRUE, FALSE})
  }

  lemma {:induction false} OneArgReads(ts: seq<Token>)
    requires FromLexer(ts) && P.StartsArg(ts)
    ensures ArgRead(ts, P.OneArg(ts))
    decreases |ts|, 2
  {
    LexedRest(ts);
    assert ts[0] == EOF || Spellable(ts[0]);
    hide ArgRead, FromLexer, Variable, ListBody, Call, P.Dashed, IsIdent, IsDotted, IsNumeral;
    if ts[0] == DOLLAR {
      VariableArg(ts);
    } else if ts[0] == LBRACKET {
      ListArg(ts);
    } else if ts[0].IDENT? {
      CallArg(ts);
    } else if ts[0] == MINUS {
      DashedArg(ts);
    } else {
      LiteralArg(ts);
    }
  }

  lemma {:induction false} VariableArg(ts: seq<Token>)
    requires FromLexer(ts) && ts != [] && ts[0] == DOLLAR
    ensures ArgRead(ts, Variable(ts[1..]))
    decreases |ts|, 1
  {
    hide Sound, FromLexer, Variable, P.StartsArg;
    LexedRest(ts);
    VariableReads(ts[1..]);
  }

  lemma {:induction false} ListArg(ts: seq<Token>)
    requires FromLexer(ts) && ts != [] && ts[0] == LBRACKET
    ensures ArgRead(ts, ListBody(ts[1..]))
    decreases |ts|, 1
  {
    hide Sound, FromLexer, ListBody, P.StartsArg;
    LexedRest(ts);
    ListReads(ts[1..]);
  }

  lemma {:induction false} CallArg(ts: seq<Token>)
    requires FromLexer(ts) && |ts| > 1 && ts[0].IDENT? && IsIdent(ts[0].name) && ts[1] == LPAREN
    ensures ArgRead(ts, Call(ts[0].name, ts[1..]))
    decreases |ts|, 1
  {
    hide Sound, FromLexer, Call, IsIdent, P.StartsArg, IsCallHead;
    LexedRest(ts);
    CallReads(ts[0].name, ts[1..]);
  }

  lemma DashedArg(ts: seq<Token>)
    requires FromLexer(ts) && ts != [] && ts[0] == MINUS && (Peek(ts[1..]).NUMBER? || Peek(ts[1..]).IDENT?)
    ensures ArgRead(ts, P.Dashed(ts[1..]))
  {
    hide Sound, FromLexer, P.Dashed, P.StartsArg;
    LexedRest(ts);
    DashedReads(ts[1..]);
  }

  lemma LiteralArg(ts: seq<Token>)
    requires FromLexer(ts) && ts != []
    requires ts[0].STRING? || ts[0] == TRUE || ts[0] == FALSE || (ts[0].NUMBER? && IsNumeral(ts[0].text))
    ensures ArgRead(ts, P.OneArg(ts))
  {
    hide Sound, FromLexer, IsNumeral, ReadNumber;
    LexedRest(ts);
    if ts[0].NUMBER? {
      if ReadNumber(ts[0].text).Some? { NumberIsSound(ts[0].text); }
    } else {
      LiteralIsSound(P.OneArg(ts).value);
    }
  }

  lemma DashedReads(ts: seq<Token>)
    requires FromLexer(ts) && (Peek(ts).NUMBER? || Peek(ts).IDENT?)
    ensures var r := P.Dashed(ts);
      r.Ok? ==> Sound(r.value) && FromLexer(r.rest) && |r.rest| < |ts| && (r.value.NumberLit? || r.value.StringLit?)
  {
    LexedRest(ts);
    assert ts[0] == EOF || Spellable(ts[0]);
    hide FromLexer, IsNumeral;
    if ts[0].NUMBER? && ReadNumber(ts[0].text).Some? { NegatedNumberIsSound(ts[0].text); }
  }

  /** A whole row of arguments ends where no further one begins, and keeps what it started with. */
  lemma {:induction false} ArgsRead(args: seq<Expr>, ts: seq<Token>)
    requires Row(args, ts)
    ensures var r := Args(args, ts);
      r.Ok? ==> Row(r.value, r.rest) && !P.StartsArg(r.rest) && args <= r.value
    decreases |ts|, 3
  {
    hide Args, Row, ArgRead, P.StartsArg, P.OneArg;
    if P.StartsArg(ts) {
      P.ArgsReadOne(args, ts);
      RowIsLexed(args, ts);
      OneArgReads(ts);
      var one := P.OneArg(ts);
      if one.Ok? {
        ArgReadGrows(args, ts, one.value, one.rest);
        ArgsRead(args + [one.value], one.rest);
      }
    } else {
      P.ArgsEnd(args, ts);
    }
  }

  lemma RowIsLexed(args: seq<Expr>, ts: seq<Token>)
    requires Row(args, ts)
    ensures AllSound(args) && FromLexer(ts)
  {
  }

  lemma ArgReadGrows(args: seq<Expr>, ts: seq<Token>, arg: Expr, rest: seq<Token>)
    requires Row(args, ts) && P.StartsArg(ts) && ArgRead(ts, Ok(arg, rest))
    ensures Row(args + [arg], rest) && |rest| < |ts|
  {
    hide Sound, FromLexer;
    assert ts != [];
    RowGrows(args, ts, arg, rest);
  }

  lemma RowIsInARow(args: seq<Expr>, ts: seq<Token>)
    requires Row(args, ts)
    ensures InARow(args, Peek(ts) != PIPE)
  {
    hide AllSound, FromLexer, IsArg;
    forall i | 0 <= i < |args|
      ensures IsArg(args[i]) || (Peek(ts) != PIPE && i == |args| - 1 && IsCallPipeline(args[i]))
    {
    }
  }

  /** The head of a pipeline as it is read: a call with a pipe after it, or a name with a row of
      arguments of which, for a bare name, the first tells. */
  ghost predicate HeadRead(commands: seq<Command>, ts: seq<Token>)
    requires commands != []
  {
    var head := commands[0];
    || ((|commands| >= 2 || Peek(ts) == PIPE) && head.cmd == CALL && |head.cmdArgs| == 1 && head.cmdArgs[0].FnCallExpr?)
    || (InARow(head.cmdArgs, |commands| == 1 && Peek(ts) != PIPE) && (Dotted(head.cmd) || FirstTells(head.cmdArgs)))
  }

  predicate FirstTells(args: seq<Expr>) {
    args != [] ==> !args[0].BoolLit? && !args[0].ListLit?
  }

  /** A pipeline read so far. */
  ghost predicate Piping(commands: seq<Command>, ts: seq<Token>) {
    && commands != [] && FromLexer(ts)
    && (forall i | 0 <= i < |commands| :: CommandSound(commands[i]))
    && (forall i | 1 <= i < |commands| :: InARow(commands[i].cmdArgs, i == |commands| - 1 && Peek(ts) != PIPE))
    && HeadRead(commands, ts)
  }

  lemma PipelineIsSound(commands: seq<Command>, ts: seq<Token>)
    requires Piping(commands, ts) && Peek(ts) != PIPE
    ensures Named(PipelineExpr(commands)) && Formed(PipelineExpr(commands))
  {
    hide FromLexer, InARow, CommandNamed;
    forall i | 0 <= i < |commands|
      ensures CommandNamed(commands[i].cmd) && AllNamed(commands[i].cmdArgs) && AllPrintable(commands[i].cmdArgs)
    {
      assert CommandSound(commands[i]);
      ListIsSound(commands[i].cmdArgs);
    }
    assert CommandsPrintable(commands) && CommandsNamed(commands);
    forall i | 1 <= i < |commands| ensures InARow(commands[i].cmdArgs, i == |commands| - 1) {
      assert InARow(commands[i].cmdArgs, i == |commands| - 1 && Peek(ts) != PIPE);
    }
    if !IsCallHead(commands) && !IsLone(commands) {
      assert InARow(commands[0].cmdArgs, |commands| == 1 && Peek(ts) != PIPE);
      assert HeadTells(commands);
    }
  }

  lemma PipingGrows(commands: seq<Command>, ts: seq<Token>, c: Command, rest: seq<Token>)
    requires Piping(commands, ts) && Peek(ts) == PIPE
    requires CommandNamed(c.cmd) && Row(c.cmdArgs, rest)
    ensures Piping(commands + [c], rest)
  {
    RowIsInARow(c.cmdArgs, rest);
    RowIsLexed(c.cmdArgs, rest);
    hide AllSound, FromLexer, InARow, CommandNamed, Row, FirstTells;
    var grown := commands + [c];
    forall i | 1 <= i < |grown| ensures InARow(grown[i].cmdArgs, i == |grown| - 1 && Peek(rest) != PIPE) {
      if i < |commands| { assert grown[i] == commands[i]; }
    }
    assert grown[0] == commands[0];
  }

  /** A pipeline ends where neither a pipe nor, once a command's arguments were read, one more
      argument follows. */
  lemma {:induction false} PipedReads(commands: seq<Command>, ts: seq<Token>)
    requires Piping(commands, ts)
    ensures var r := Piped(commands, ts);
      r.Ok? ==>
        && Named(r.value) && Formed(r.value) && FromLexer(r.rest) && Peek(r.rest) != PIPE
        && r.value.PipelineExpr? && commands <= r.value.commands
        && (Peek(ts) == PIPE ==> |r.value.commands| > |commands|)
        && (Peek(ts) != PIPE ==> r == Ok(PipelineExpr(commands), ts))
        && (Peek(ts) == PIPE || !P.StartsArg(ts) ==> !P.StartsArg(r.rest))
    decreases |ts|, 0
  {
    hide Named, Formed, FromLexer, Piping, Row, Args, SkipNewlines, CommandNamed, P.StartsArg;
    PipingIsLexed(commands, ts);
    if Peek(ts) != PIPE {
      PipelineIsSound(commands, ts);
    } else {
      LexedRest(ts);
      LexedSkip(ts[1..]);
      var after := SkipNewlines(ts[1..]);
      var name := CommandName(Peek(after));
      if name.Some? && after != [] {
        NameIsNamed(after);
        LexedRest(after);
        EmptyRow(after[1..]);
        ArgsRead([], after[1..]);
        var args := Args([], after[1..]);
        if args.Ok? {
          PipingGrows(commands, ts, Command(name.value, args.value), args.rest);
          PipedReads(commands + [Command(name.value, args.value)], args.rest);
        }
      }
    }
  }

  lemma PipingIsLexed(commands: seq<Command>, ts: seq<Token>)
    requires Piping(commands, ts)
    ensures FromLexer(ts)
  {
  }

  lemma EmptyRow(ts: seq<Token>)
    requires FromLexer(ts)
    ensures Row([], ts)
  {
  }

  lemma NameIsNamed(ts: seq<Token>)
    requires FromLexer(ts) && ts != [] && CommandName(ts[0]).Some?
    ensures CommandNamed(CommandName(ts[0]).value)
  {
    assert Spellable(ts[0]);
    if ts[0].IDENT? { IdentHasNoDot(ts[0].name); } else { DottedHasADot(ts[0].name); }
  }

  lemma CallIsNamed()
    ensures CommandNamed(CALL)
  {
    assert IsName(CALL);
    assert Keyword(CALL).None?;
    IdentHasNoDot(CALL);
  }

  lemma {:induction false} CallReads(name: string, ts: seq<Token>)
    requires FromLexer(ts) && IsIdent(name) && Peek(ts) == LPAREN
    ensures Reads(Call(name, ts))
    ensures var r := Call(name, ts);
      r.Ok? ==> (r.value.FnCallExpr? || IsCallPipeline(r.value)) && Ends(r.value, r.rest)
    decreases |ts|, 1
  {
    hide Named, Formed, AllSound, FromLexer, IsIdent, CallArgs, Piped, Piping, Eat, P.StartsArg;
    LexedRest(ts);
    var args := CallArgs(ts[1..]);
    CallArgsRead(ts[1..]);
    if args.Ok? {
      LexedEat(args.rest, RPAREN);
      var close := Eat(args.rest, RPAREN);
      if close.Ok? {
        CallIsSound(name, args.value);
        if Peek(close.rest) == PIPE {
          CallHeads(FnCallExpr(name, args.value), close.rest);
          PipedReads([Command(CALL, [FnCallExpr(name, args.value)])], close.rest);
        }
      }
    }
  }

  lemma CallHeads(call: Expr, ts: seq<Token>)
    requires Sound(call) && call.FnCallExpr? && FromLexer(ts) && Peek(ts) == PIPE
    ensures Piping([Command(CALL, [call])], ts)
  {
    hide Sound, FromLexer, CommandNamed;
    CallIsNamed();
  }

  /** A command, or a lone one where a minus follows that begins no argument. */
  lemma {:induction false} CommandReads(name: string, ts: seq<Token>)
    requires FromLexer(ts) && CommandNamed(name) && (Dotted(name) || LooksLikeArg(ts))
    ensures var r := CommandFrom(name, ts);
      r.Ok? ==> SoundBefore(PRIMARY, r.value, r.rest) && FromLexer(r.rest) && (Dotted(name) ==> Sound(r.value))
    decreases |ts|, 4
  {
    hide *;
    EmptyRow(ts);
    CommandFromStep(name, ts);
    ArgsRead([], ts);
    var args := Args([], ts);
    if args.Ok? {
      if !Dotted(name) { FirstArgTells(ts); }
      NameHeads(name, args.value, args.rest);
      PipedReads([Command(name, args.value)], args.rest);
      var r := Piped([Command(name, args.value)], args.rest);
      if r.Ok? { CommandSettles(name, args.value, ts, args.rest, r.value, r.rest); }
    }
  }

  lemma CommandSettles(name: string, args: seq<Expr>, ts: seq<Token>, after: seq<Token>, e: Expr, rest: seq<Token>)
    requires Named(e) && Formed(e) && e.PipelineExpr? && [Command(name, args)] <= e.commands
    requires Peek(after) == PIPE ==> |e.commands| > 1
    requires Peek(after) != PIPE ==> e == PipelineExpr([Command(name, args)]) && rest == after
    requires !Dotted(name) && args == [] ==> after == ts && Dangles(ts)
    ensures SoundBefore(PRIMARY, e, rest) && (Dotted(name) ==> Sound(e))
  {
    hide Named, Dotted, Dangles, Peek;
  }

  lemma CommandFromStep(name: string, ts: seq<Token>)
    ensures var args := Args([], ts);
      && (args.Ok? ==> CommandFrom(name, ts) == Piped([Command(name, args.value)], args.rest))
      && (!args.Ok? ==> !CommandFrom(name, ts).Ok?)
  {
    hide Args, Piped;
  }

  lemma NameHeads(name: string, args: seq<Expr>, ts: seq<Token>)
    requires CommandNamed(name) && Row(args, ts) && (Dotted(name) || FirstTells(args))
    ensures Piping([Command(name, args)], ts)
  {
    RowIsInARow(args, ts);
    RowIsLexed(args, ts);
  }

  /** Where a bare name is taken for a command, its first argument tells. */
  lemma {:induction false} FirstArgTells(ts: seq<Token>)
    requires FromLexer(ts) && LooksLikeArg(ts)
    ensures var r := Args([], ts);
      r.Ok? ==> FirstTells(r.value) && (r.value == [] ==> r.rest == ts && Dangles(ts))
    decreases |ts|, 3
  {
    hide Args, FromLexer, Row, P.OneArg;
    if P.StartsArg(ts) {
      P.ArgsReadOne([], ts);
      var one := P.OneArg(ts);
      OneArgReads(ts);
      if one.Ok? {
        EmptyRow(ts);
        ArgReadGrows([], ts, one.value, one.rest);
        assert [] + [one.value] == [one.value];
        ArgsRead([one.value], one.rest);
      }
    } else {
      P.ArgsEnd([], ts);
    }
  }

  lemma {:induction false} CommandOrVarReads(name: string, ts: seq<Token>)
    requires FromLexer(ts) && IsIdent(name)
    ensures var r := CommandOrVar(name, ts); r.Ok? ==> SoundBefore(PRIMARY, r.value, r.rest) && FromLexer(r.rest)
    decreases |ts|, 5
  {
    IdentHasNoDot(name);
    EmptyRow(ts);
    hide FromLexer, Row, IsIdent, CommandNamed, CommandFrom, Piped, Piping, LooksLikeArg, Dangles;
    if LooksLikeArg(ts) {
      CommandReads(name, ts);
    } else if Peek(ts) == PIPE {
      NameHeads(name, [], ts);
      PipedReads([Command(name, [])], ts);
    }
  }
}
