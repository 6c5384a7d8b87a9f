/** Parsing undoes printing: the tokens of a tree parse back to exactly that tree, for expressions,
    statements and whole programs.  This fixes the precedence ladder, left associativity, the
    comparison that does not chain, and where a command's arguments and pipeline end. */
module Inversion {
  import opened Wrappers
  import opened Syntax
  import opened Grammar
  import opened Printer

  // ----- what may follow -----

  /** How loose a context has to be for a token to continue an expression in it. */
  function Rank(t: Token): int {
    match t
    case OR => 0
    case AND => 1
    case EQ => 2 case NE => 2 case LT => 2 case GT => 2 case LE => 2 case GE => 2
    case PLUS => 3 case MINUS => 3
    case STAR => 4 case SLASH => 4
    case LBRACKET => 6
    case PIPE => 9
    case _ => -1
  }

  /** The next token continues nothing tighter than a level; after a comparison, no comparison. */
  predicate Quiet(level: nat, rest: Tokens) {
    Rank(Peek(rest)) <= if level == COMPARE then COMPARE - 1 else level
  }

  /** The parser of a level of the ladder, postfix and primary expressions included. */
  function ParseAt(level: nat, ts: Tokens): Parsed<Expr> {
    if level <= UNARY then Ladder(level, ts) else if level == INDEXED then Postfix(ts) else Primary(ts)
  }

  /** What the parser of a level makes of an operand it has just read. */
  function Continue(level: nat, e: Expr, rest: Tokens): Parsed<Expr> {
    if level < UNARY then Climb(level, e, rest)
    else if level == INDEXED then Indexes(e, rest)
    else Ok(e, rest)
  }

  /** Tokens an expression can begin with. */
  predicate IsStart(t: Token) {
    || t.STRING? || t.NUMBER? || t.IDENT? || t.DOTTED?
    || t in {TRUE, FALSE, NULL, LBRACKET, LBRACE, LPAREN, DOLLAR, NOT, MINUS}
  }

  predicate IsPrefix(t: Token) {
    t == NOT || t == MINUS
  }

  lemma {:induction false} TokHead(style: Style, e: Expr, level: nat, rest: Tokens)
    requires Formed(e)
    ensures Tok(style, e, level, rest) != [] && IsStart(Tok(style, e, level, rest)[0])
    ensures level > UNARY || Level(e) > UNARY ==> !IsPrefix(Tok(style, e, level, rest)[0])
    decreases e, 1
  {
    if !Wrapped(style, e, level, rest) { BareHead(style, e, rest); }
  }

  lemma {:induction false} BareHead(style: Style, e: Expr, rest: Tokens)
    requires Formed(e)
    ensures Bare(style, e, rest) != [] && IsStart(Bare(style, e, rest)[0])
    ensures Level(e) > UNARY ==> !IsPrefix(Bare(style, e, rest)[0])
    decreases e, 0
  {
    match e
    case IndexExpr(obj, index) => TokHead(style, obj, INDEXED, [LBRACKET] + Tok(style, index, 0, [RBRACKET] + rest));
    case BinOp(left, op, right) =>
      TokHead(style, left, LeftLevel(op), [OpToken(op)] + RightTok(style, left, op, right, rest));
    case PipelineExpr(commands) =>
      assert CommandsPrintable(commands);
      if IsCallHead(commands) {
        assert AllPrintable(commands[0].cmdArgs);
        BareHead(style, commands[0].cmdArgs[0], Pipes(style, commands[1..], rest));
      }
    case _ =>
  }

  // ----- moving between levels -----

  lemma QuietStopsClimb(level: nat, e: Expr, rest: Tokens)
    requires level < UNARY && Rank(Peek(rest)) < level
    ensures Climb(level, e, rest) == Ok(e, rest)
  {
  }

  /** What one level reads whole, the next looser one reads as its operand. */
  lemma StepDown(level: nat, ts: Tokens, e: Expr, rest: Tokens)
    requires level < PRIMARY && ParseAt(level + 1, ts) == Continue(level + 1, e, rest) && Quiet(level, rest)
    requires level == UNARY ==> ts != [] && !IsPrefix(ts[0])
    ensures ParseAt(level, ts) == Continue(level, e, rest)
  {
    hide Expression;
    if level + 1 < UNARY {
      QuietStopsClimb(level + 1, e, rest);
      assert Ladder(level + 1, ts) == Ok(e, rest);
    } else if level < UNARY {
      assert Ladder(level + 1, ts) == Ok(e, rest);
    } else if level == UNARY {
      assert Ladder(level, ts) == Unary(ts) == Postfix(ts) == Ok(e, rest);
    } else {
      assert Primary(ts) == Ok(e, rest);
      assert Postfix(ts) == Indexes(e, rest);
    }
  }

  lemma {:induction false} Down(from: nat, level: nat, ts: Tokens, e: Expr, rest: Tokens)
    requires level <= from <= PRIMARY && ParseAt(from, ts) == Continue(from, e, rest) && Quiet(level, rest)
    requires from > UNARY ==> ts != [] && !IsPrefix(ts[0])
    ensures ParseAt(level, ts) == Continue(level, e, rest)
    decreases from
  {
    hide ParseAt, Continue;
    if level < from {
      StepDown(from - 1, ts, e, rest);
      Down(from - 1, level, ts, e, rest);
    }
  }

  // ----- expressions -----

  /** What makes a bare name a lone command: a minus that begins no argument. */
  predicate Dangles(rest: Tokens) {
    rest != [] && rest[0] == MINUS && !Peek(rest[1..]).NUMBER? && !Peek(rest[1..]).IDENT?
  }

  /** The tokens of an expression, printed for a level and followed by something that does not
      continue it, parse at that level to the expression. */
  lemma {:induction false} Invert(style: Style, level: nat, e: Expr, rest: Tokens)
    requires level <= PRIMARY && Formed(e) && Quiet(level, rest)
    requires Hangs(e) ==> Level(e) >= level && Dangles(rest)
    ensures ParseAt(level, Tok(style, e, level, rest)) == Continue(level, e, rest)
    decreases e, 3
  {
    hide ParseAt, Continue, Bare, Formed, Hangs;
    TokHead(style, e, level, rest);
    HangingFits(e);
    if Wrapped(style, e, level, rest) {
      InvertParens(style, e, rest);
      Down(PRIMARY, level, Tok(style, e, level, rest), e, rest);
    } else if Level(e) < 0 {
      InvertPipe(style, e, rest);
      PipeHead(style, e, rest);
      PipeAt(Bare(style, e, rest), e, rest);
      Down(PRIMARY, level, Tok(style, e, level, rest), e, rest);
    } else {
      InvertBare(style, e, rest);
      Down(Level(e), level, Tok(style, e, level, rest), e, rest);
    }
  }

  lemma HangingFits(e: Expr)
    ensures Level(e) < 0 ==> e.PipelineExpr? && !IsLone(e.commands) && !Hangs(e)
  {
  }

  lemma PipeAt(ts: Tokens, e: Expr, rest: Tokens)
    requires Primary(ts) == Ok(e, rest)
    ensures ParseAt(PRIMARY, ts) == Continue(PRIMARY, e, rest)
  {
    hide Primary;
  }

  /** In parentheses any expression is a primary one. */
  lemma {:induction false} InvertParens(style: Style, e: Expr, rest: Tokens)
    requires Printable(e)
    ensures ParseAt(PRIMARY, [LPAREN] + Bare(style, e, [RPAREN] + rest)) == Continue(PRIMARY, e, rest)
    decreases e, 2, 1
  {
    InvertInParens(style, e, [RPAREN] + rest);
    ParensTaken(Bare(style, e, [RPAREN] + rest), e, rest);
    hide Bare, Formed, Expression;
  }

  lemma ParensTaken(inner: Tokens, e: Expr, rest: Tokens)
    requires Expression(inner) == Ok(e, [RPAREN] + rest)
    ensures ParseAt(PRIMARY, [LPAREN] + inner) == Continue(PRIMARY, e, rest)
  {
    hide Expression;
    assert ([LPAREN] + inner)[1..] == inner;
    assert ([RPAREN] + rest)[1..] == rest;
  }

  lemma {:induction false} InvertInParens(style: Style, e: Expr, after: Tokens)
    requires Printable(e) && Peek(after) == RPAREN
    ensures Expression(Bare(style, e, after)) == Ok(e, after)
    decreases e, 2, 0
  {
    var inner := Bare(style, e, after);
    BareHead(style, e, after);
    hide Bare, Formed, Primary, Postfix, Unary;
    if e.PipelineExpr? {
      assert EndsPipeline(after);
      InvertPipe(style, e, after);
      assert !IsPrefix(inner[0]) by { PipeHead(style, e, after); }
      Down(PRIMARY, 0, inner, e, after);
    } else {
      InvertBare(style, e, after);
      Down(Level(e), 0, inner, e, after);
    }
    QuietStopsClimb(0, e, after);
  }

  lemma PipeHead(style: Style, e: Expr, rest: Tokens)
    requires Formed(e) && e.PipelineExpr?
    ensures Bare(style, e, rest) != [] && !IsPrefix(Bare(style, e, rest)[0])
  {
    var commands := e.commands;
    assert CommandsPrintable(commands);
    if IsCallHead(commands) {
      assert AllPrintable(commands[0].cmdArgs);
      BareHead(style, commands[0].cmdArgs[0], Pipes(style, commands[1..], rest));
    }
  }

  /** Without parentheses an expression parses at its own level. */
  lemma {:induction false} InvertBare(style: Style, e: Expr, rest: Tokens)
    requires Formed(e) && Level(e) >= 0 && Quiet(Level(e), rest)
    requires Hangs(e) ==> Dangles(rest)
    ensures ParseAt(Level(e), Bare(style, e, rest)) == Continue(Level(e), e, rest)
    decreases e, 1
  {
    match e
    case BinOp(left, op, right) => InvertBinary(style, e, rest);
    case UnaryOp(op, operand) => InvertUnary(style, e, rest);
    case IndexExpr(obj, index) => InvertIndex(style, e, rest);
    case VarRef(name) => InvertVariable(style, name, rest);
    case ListLit(elements) => InvertList(style, elements, rest);
    case MapLit(pairs) => InvertMap(style, pairs, rest);
    case FnCallExpr(name, args) => InvertCall(style, name, args, rest);
    case PipelineExpr(_) => InvertLone(style, e, rest);
    case _ => InvertLiteral(style, e, rest);
  }

  /** A bare name where a minus follows that begins no argument. */
  lemma InvertLone(style: Style, e: Expr, rest: Tokens)
    requires IsLoneExpr(e) && Formed(e) && Dangles(rest)
    ensures Primary(Bare(style, e, rest)) == Ok(e, rest)
  {
    var name := e.commands[0].cmd;
    var ts := [IDENT(name)] + rest;
    assert e.commands == [Command(name, [])];
    assert CommandsPrintable(e.commands);
    assert Bare(style, e, rest) == ts;
    assert ts[1..] == rest && Peek(rest) == MINUS;
    assert Args([], rest) == Ok([], rest);
    hide Args;
    assert Piped([Command(name, [])], rest) == Ok(e, rest);
    assert CommandFrom(name, rest) == Ok(e, rest);
    assert LooksLikeArg(rest) && CommandOrVar(name, rest) == CommandFrom(name, rest);
    hide CommandOrVar;
    assert Primary(ts) == CommandOrVar(name, ts[1..]);
  }

  lemma InvertLiteral(style: Style, e: Expr, rest: Tokens)
    requires Printable(e) && (e.StringLit? || e.NumberLit? || e.BoolLit? || e.NullLit?)
    ensures Primary(Bare(style, e, rest)) == Ok(e, rest)
  {
  }

  lemma {:induction false} InvertBinary(style: Style, e: Expr, rest: Tokens)
    requires Formed(e) && e.BinOp? && Quiet(Level(e), rest)
    requires Hangs(e) ==> Dangles(rest)
    ensures Ladder(Level(e), Bare(style, e, rest)) == Climb(Level(e), e, rest)
    decreases e, 0
  {
    hide Tok, RightTok, Expression, Unary, Postfix, Primary, Climb, Ladder;
    var level := OpLevel(e.op);
    var right := RightTok(style, e.left, e.op, e.right, rest);
    var after := [OpToken(e.op)] + right;
    if Hangs(e.left) { RightHead(style, e.left, e.op, e.right, rest); }
    Invert(style, LeftLevel(e.op), e.left, after);
    InvertRight(style, e.left, e.op, e.right, rest);
    assert after[1..] == right;
    BinaryParses(level, e, Bare(style, e, rest), after, rest);
  }

  /** Left side, operator and right side are read one after the other. */
  lemma BinaryParses(level: nat, e: Expr, ts: Tokens, after: Tokens, rest: Tokens)
    requires e.BinOp? && level == OpLevel(e.op) && Quiet(level, rest) && after != [] && after[0] == OpToken(e.op)
    requires Ladder(LeftLevel(e.op), ts) == Climb(LeftLevel(e.op), e.left, after)
    requires Ladder(level + 1, after[1..]) == Ok(e.right, rest)
    ensures Ladder(level, ts) == Climb(level, e, rest)
  {
    hide Ladder, Climb;
    ClimbTakes(level, e, after, rest);
    if level == COMPARE {
      CompareLeft(e, ts, after);
      QuietStopsClimb(level, e, rest);
    }
  }

  /** One operator and its right side are taken, and after a comparison nothing more. */
  lemma ClimbTakes(level: nat, e: Expr, after: Tokens, rest: Tokens)
    requires e.BinOp? && level == OpLevel(e.op) && after != [] && after[0] == OpToken(e.op)
    requires Ladder(level + 1, after[1..]) == Ok(e.right, rest)
    ensures Climb(level, e.left, after) == if level == COMPARE then Ok(e, rest) else Climb(level, e, rest)
  {
    OwnOperator(e.op);
    hide Ladder, OpAt, OpLevel, OpToken;
  }

  lemma OwnOperator(op: BinaryOp)
    ensures OpAt(OpLevel(op), OpToken(op)) == Some(op) && OpLevel(op) < UNARY
  {
  }

  /** The left side of a comparison is read one level tighter. */
  lemma CompareLeft(e: Expr, ts: Tokens, after: Tokens)
    requires e.BinOp? && OpLevel(e.op) == COMPARE && after != [] && after[0] == OpToken(e.op)
    requires Ladder(COMPARE + 1, ts) == Climb(COMPARE + 1, e.left, after)
    ensures Ladder(COMPARE, ts) == Climb(COMPARE, e.left, after)
  {
    QuietStopsClimb(COMPARE + 1, e.left, after);
    hide Climb, Unary;
  }

  /** What comes after a lone command and its minus begins no argument. */
  lemma RightHead(style: Style, left: Expr, op: BinaryOp, right: Expr, rest: Tokens)
    requires Formed(BinOp(left, op, right)) && Hangs(left)
    ensures Dangles([OpToken(op)] + RightTok(style, left, op, right, rest))
  {
    var after := RightTok(style, left, op, right, rest);
    assert ([OpToken(op)] + after)[1..] == after;
    if Hangs(right) && right.UnaryOp? {
      assert Bare(style, right, rest) != [] && IsPrefix(Bare(style, right, rest)[0]);
    }
  }

  /** The right side is read whole. */
  lemma {:induction false} InvertRight(style: Style, left: Expr, op: BinaryOp, right: Expr, rest: Tokens)
    requires Formed(BinOp(left, op, right)) && Quiet(OpLevel(op), rest)
    requires Hangs(right) ==> Dangles(rest)
    ensures Ladder(OpLevel(op) + 1, RightTok(style, left, op, right, rest)) == Ok(right, rest)
    decreases right, 4
  {
    hide Tok, Bare, Ladder, Expression, Unary, Postfix, Primary;
    var level := OpLevel(op) + 1;
    if !Hangs(left) {
      Invert(style, level, right, rest);
      ClimbEnds(level, right, rest);
    } else if !Hangs(right) {
      InvertParens(style, right, rest);
      Down(PRIMARY, level, [LPAREN] + Bare(style, right, [RPAREN] + rest), right, rest);
      ClimbEnds(level, right, rest);
    } else if right.BinOp? {
      InvertHangingProduct(style, right, rest);
    } else {
      BareHead(style, right, rest);
      InvertBare(style, right, rest);
      Down(UNARY, level, Bare(style, right, rest), right, rest);
      ClimbEnds(level, right, rest);
    }
  }

  /** An operand is read whole where no operator of its level follows. */
  lemma ClimbEnds(level: nat, e: Expr, rest: Tokens)
    requires 0 < level <= UNARY && Quiet(level - 1, rest)
    ensures Continue(level, e, rest) == Ok(e, rest)
  {
    if level < UNARY { QuietStopsClimb(level, e, rest); }
  }

  /** A product on the right that ends with a lone command, its left side in parentheses. */
  lemma {:induction false} InvertHangingProduct(style: Style, e: Expr, rest: Tokens)
    requires Formed(e) && e.BinOp? && Hangs(e) && OpLevel(e.op) == 4 && Dangles(rest)
    ensures var after := [OpToken(e.op)] + Tok(style, e.right, 5, rest);
      Ladder(4, [LPAREN] + Bare(style, e.left, [RPAREN] + after)) == Ok(e, rest)
    decreases e, 3
  {
    hide Tok, Bare, Ladder, Climb, Expression, Unary, Postfix, Primary;
    var after := [OpToken(e.op)] + Tok(style, e.right, 5, rest);
    var ts := [LPAREN] + Bare(style, e.left, [RPAREN] + after);
    InvertParens(style, e.left, after);
    Down(PRIMARY, 4, ts, e.left, after);
    Invert(style, 5, e.right, rest);
    assert after[1..] == Tok(style, e.right, 5, rest);
    BinaryParses(4, e, ts, after, rest);
    ClimbEnds(4, e, rest);
  }

  lemma {:induction false} InvertUnary(style: Style, e: Expr, rest: Tokens)
    requires Formed(e) && e.UnaryOp? && Quiet(UNARY, rest)
    requires Hangs(e) ==> Dangles(rest)
    ensures Unary(Bare(style, e, rest)) == Ok(e, rest)
    decreases e, 0
  {
    Invert(style, UNARY, e.operand, rest);
    var operand := Tok(style, e.operand, UNARY, rest);
    assert Bare(style, e, rest)[1..] == operand;
    hide Tok, Printable, Postfix;
    assert Unary(operand) == Ladder(UNARY, operand);
  }

  lemma {:induction false} InvertIndex(style: Style, e: Expr, rest: Tokens)
    requires Printable(e) && e.IndexExpr?
    ensures Postfix(Bare(style, e, rest)) == Indexes(e, rest)
    decreases e, 0
  {
    var close := [RBRACKET] + rest;
    var index := Tok(style, e.index, 0, close);
    var open := [LBRACKET] + index;
    Invert(style, INDEXED, e.obj, open);
    IndexStep(style, e.obj, e.index, rest);
  }

  /** One bracketed index is read and the next one looked for. */
  lemma {:induction false} IndexStep(style: Style, obj: Expr, index: Expr, rest: Tokens)
    requires Printable(index)
    ensures Indexes(obj, [LBRACKET] + Tok(style, index, 0, [RBRACKET] + rest)) == Indexes(IndexExpr(obj, index), rest)
    decreases index, 5
  {
    var close := [RBRACKET] + rest;
    var inner := Tok(style, index, 0, close);
    assert ([LBRACKET] + inner)[1..] == inner;
    assert close[1..] == rest;
    ExpressionInverts(style, index, close);
    hide Tok, Printable, Expression;
  }

  /** An expression printed for the loosest level, before a token that continues nothing. */
  lemma {:induction false} ExpressionInverts(style: Style, e: Expr, rest: Tokens)
    requires Printable(e) && Rank(Peek(rest)) < 0
    ensures Expression(Tok(style, e, 0, rest)) == Ok(e, rest)
    decreases e, 4
  {
    Invert(style, 0, e, rest);
    hide Tok, Primary;
    QuietStopsClimb(0, e, rest);
  }

  lemma InvertVariable(style: Style, name: string, rest: Tokens)
    ensures Postfix(Bare(style, VarRef(name), rest)) == Indexes(VarRef(name), rest)
  {
    if style.bare(rest) && IsPlain(rest) {
      PlainVariable(name, rest);
    } else {
      var ts := [DOLLAR] + ([IDENT(name)] + rest);
      assert ts[1..] == [IDENT(name)] + rest && ts[1..][1..] == rest;
      assert Primary(ts) == Variable(ts[1..]) == Indexes(VarRef(name), rest);
      IndexesStops(VarRef(name), rest);
    }
  }

  /** A bare name is a variable unless what follows makes it a command or a call. */
  lemma PlainVariable(name: string, rest: Tokens)
    requires IsPlain(rest)
    ensures Postfix([IDENT(name)] + rest) == Indexes(VarRef(name), rest)
  {
    hide LooksLikeArg, Call, CommandFrom, Piped, Indexes;
    var ts := [IDENT(name)] + rest;
    assert ts[1..] == rest;
    assert Primary(ts) == CommandOrVar(name, rest) == Ok(VarRef(name), rest);
    hide Primary;
  }

  /** After all indexes are read no bracket follows. */
  lemma {:induction false} IndexesStops(e: Expr, ts: Tokens)
    ensures var r := Indexes(e, ts); r.Ok? ==> Indexes(r.value, r.rest) == r
    decreases |ts|
  {
    hide Expression;
    if Peek(ts) == LBRACKET {
      var index := Expression(ts[1..]);
      if index.Ok? && Eat(index.rest, RBRACKET).Ok? {
        IndexesStops(IndexExpr(e, index.value), Eat(index.rest, RBRACKET).rest);
      }
    }
  }

  // ----- lists, calls and maps -----

  lemma {:induction false} SkipLines(n: nat, rest: Tokens)
    ensures SkipNewlines(Lines(n, rest)) == SkipNewlines(rest)
    ensures Peek(Lines(n, rest)) == if n == 0 then Peek(rest) else NEWLINE
    ensures rest != [] ==> Lines(n, rest) != []
  {
    if n > 0 {
      assert ([NEWLINE] + Lines(n - 1, rest))[1..] == Lines(n - 1, rest);
      SkipLines(n - 1, rest);
    }
  }

  /** Newlines that may stand before something are skipped. */
  lemma SkipGap(style: Style, rest: Tokens)
    ensures SkipNewlines(Gap(style, rest)) == SkipNewlines(rest)
    ensures Peek(rest) != NEWLINE ==> SkipNewlines(Gap(style, rest)) == rest
    ensures Peek(Gap(style, rest)) == Peek(rest) || Peek(Gap(style, rest)) == NEWLINE
    ensures rest != [] ==> Gap(style, rest) != []
  {
    SkipLines(style.lines(rest), rest);
    hide Lines;
  }

  /** One more element is read after its comma and newlines. */
  lemma MoreItemsStep(style: Style, before: seq<Expr>, e: Expr, first: Tokens, more: Tokens)
    requires first != [] && IsStart(first[0]) && Expression(first) == Ok(e, more)
    ensures MoreItems(before, [COMMA] + Gap(style, first)) == MoreItems(before + [e], more)
  {
    hide Expression, Gap, SkipNewlines;
    SkipGap(style, first);
    assert ([COMMA] + Gap(style, first))[1..] == Gap(style, first);
  }

  /** What closes a list is found after a last comma and newlines. */
  lemma MoreItemsEnd(style: Style, before: seq<Expr>, close: Tokens)
    requires Peek(close) == RBRACKET
    ensures var r := MoreItems(before, Closing(style, close));
      r.Ok? && r.value == before && SkipNewlines(r.rest) == close
    ensures Peek(Closing(style, close)) in {COMMA, NEWLINE, RBRACKET}
  {
    hide Expression, Gap, SkipNewlines;
    SkipGap(style, close);
    assert ([COMMA] + Gap(style, close))[1..] == Gap(style, close);
    assert SkipNewlines(close) == close by { SettledAlready(close); }
  }

  lemma SettledAlready(ts: Tokens)
    requires Peek(ts) != NEWLINE
    ensures SkipNewlines(ts) == ts
  {
  }

  lemma MoreElementsHead(style: Style, es: seq<Expr>, close: Tokens)
    requires AllPrintable(es) && Peek(close) == RBRACKET
    ensures Peek(MoreElements(style, es, close)) in {COMMA, NEWLINE, RBRACKET}
  {
    hide Tok, Gap;
    if es == [] { MoreItemsEnd(style, [], close); }
  }

  lemma {:induction false} MoreItemsInvert(style: Style, before: seq<Expr>, es: seq<Expr>, close: Tokens)
    requires AllPrintable(es) && Peek(close) == RBRACKET
    ensures var r := MoreItems(before, MoreElements(style, es, close));
      r.Ok? && r.value == before + es && SkipNewlines(r.rest) == close
    decreases es
  {
    hide Tok, Expression, Formed, Hangs, MoreItems, Gap, Closing, SkipNewlines;
    if es == [] {
      assert before + es == before;
      MoreItemsEnd(style, before, close);
    } else {
      var more := MoreElements(style, es[1..], close);
      MoreElementsHead(style, es[1..], close);
      TokHead(style, es[0], 0, more);
      ExpressionInverts(style, es[0], more);
      MoreItemsStep(style, before, es[0], Tok(style, es[0], 0, more), more);
      MoreItemsInvert(style, before + [es[0]], es[1..], close);
      assert before + [es[0]] + es[1..] == before + es;
    }
  }

  lemma {:induction false} InvertList(style: Style, es: seq<Expr>, rest: Tokens)
    requires AllPrintable(es)
    ensures ListBody(Gap(style, Elements(style, es, [RBRACKET] + rest))) == Ok(ListLit(es), rest)
    ensures Primary(Bare(style, ListLit(es), rest)) == Ok(ListLit(es), rest)
    decreases es, 2
  {
    var close := [RBRACKET] + rest;
    ListItemsInvert(style, es, close);
    ListTaken(style, Elements(style, es, close), es, rest);
    hide Elements, ListItems, Primary, ListBody, Gap;
  }

  lemma ListTaken(style: Style, items: Tokens, es: seq<Expr>, rest: Tokens)
    requires SkipNewlines(items) == items && ListItems(items).Ok?
    requires ListItems(items).value == es && SkipNewlines(ListItems(items).rest) == [RBRACKET] + rest
    ensures ListBody(Gap(style, items)) == Ok(ListLit(es), rest)
    ensures Primary([LBRACKET] + Gap(style, items)) == Ok(ListLit(es), rest)
  {
    hide ListItems, Gap, SkipNewlines;
    SkipGap(style, items);
    assert ([RBRACKET] + rest)[1..] == rest;
    assert ([LBRACKET] + Gap(style, items))[1..] == Gap(style, items);
  }

  lemma {:induction false} ListItemsInvert(style: Style, es: seq<Expr>, close: Tokens)
    requires AllPrintable(es) && Peek(close) == RBRACKET
    ensures var r := ListItems(Elements(style, es, close));
      r.Ok? && r.value == es && SkipNewlines(r.rest) == close
    ensures SkipNewlines(Elements(style, es, close)) == Elements(style, es, close)
    decreases es, 1
  {
    hide Tok, Expression, MoreItems, MoreElements, Formed, Hangs;
    if es == [] {
      SettledAlready(close);
    } else {
      var more := MoreElements(style, es[1..], close);
      TokHead(style, es[0], 0, more);
      MoreElementsHead(style, es[1..], close);
      ExpressionInverts(style, es[0], more);
      MoreItemsInvert(style, [es[0]], es[1..], close);
      assert [es[0]] + es[1..] == es;
    }
  }

  /** After an element come a comma or what closes the list. */
  lemma MoreHead(style: Style, es: seq<Expr>, rest: Tokens)
    requires AllPrintable(es)
    ensures Peek(MoreToks(style, es, rest)) == if es == [] then Peek(rest) else COMMA
  {
    hide Tok;
  }

  lemma MoreArgsStep(before: seq<Expr>, e: Expr, first: Tokens, more: Tokens)
    requires Expression(first) == Ok(e, more)
    ensures MoreArgs(before, [COMMA] + first) == MoreArgs(before + [e], more)
  {
    hide Expression;
    assert ([COMMA] + first)[1..] == first;
  }

  lemma {:induction false} MoreArgsInvert(style: Style, before: seq<Expr>, es: seq<Expr>, rest: Tokens)
    requires AllPrintable(es) && Peek(rest) == RPAREN
    ensures MoreArgs(before, MoreToks(style, es, rest)) == Ok(before + es, rest)
    decreases es
  {
    hide Tok, Expression;
    if es == [] {
      assert before + es == before;
    } else {
      var more := MoreToks(style, es[1..], rest);
      ExpressionInverts(style, es[0], more);
      MoreArgsStep(before, es[0], Tok(style, es[0], 0, more), more);
      MoreArgsInvert(style, before + [es[0]], es[1..], rest);
      assert before + [es[0]] + es[1..] == before + es;
    }
  }

  lemma {:induction false} CallArgsInvert(style: Style, es: seq<Expr>, rest: Tokens)
    requires AllPrintable(es) && Peek(rest) == RPAREN
    ensures CallArgs(Items(style, es, rest)) == Ok(es, rest)
    decreases es, 1
  {
    hide Tok, Expression, MoreArgs, MoreToks;
    if es != [] {
      var more := MoreToks(style, es[1..], rest);
      TokHead(style, es[0], 0, more);
      MoreHead(style, es[1..], rest);
      ExpressionInverts(style, es[0], more);
      MoreArgsInvert(style, [es[0]], es[1..], rest);
      assert [es[0]] + es[1..] == es;
    }
  }

  /** A call reads its arguments; a pipe after it starts a pipeline with the call at its head. */
  lemma {:induction false} CallInverts(style: Style, name: string, args: seq<Expr>, rest: Tokens)
    requires AllPrintable(args)
    ensures Call(name, [LPAREN] + Items(style, args, [RPAREN] + rest))
      == if Peek(rest) == PIPE then Piped([Command(CALL, [FnCallExpr(name, args)])], rest)
         else Ok(FnCallExpr(name, args), rest)
    decreases args, 2
  {
    var close := [RPAREN] + rest;
    CallArgsInvert(style, args, close);
    assert ([LPAREN] + Items(style, args, close))[1..] == Items(style, args, close);
    assert close[1..] == rest;
    hide Items, CallArgs, Piped;
  }

  lemma {:induction false} InvertCall(style: Style, name: string, args: seq<Expr>, rest: Tokens)
    requires AllPrintable(args)
    ensures Primary(Bare(style, FnCallExpr(name, args), rest))
      == if Peek(rest) == PIPE then Piped([Command(CALL, [FnCallExpr(name, args)])], rest)
         else Ok(FnCallExpr(name, args), rest)
    decreases args, 3
  {
    hide Call, Piped, Items, Tok, AllPrintable;
    CallInverts(style, name, args, rest);
    var after := [LPAREN] + Items(style, args, [RPAREN] + rest);
    assert ([IDENT(name)] + after)[1..] == after;
  }

  lemma {:induction false} PairInverts(style: Style, pair: Pair, rest: Tokens)
    requires Printable(pair.val) && Rank(Peek(rest)) < 0
    ensures MapPair(PairToks(style, pair, rest)) == Ok(pair, rest)
    decreases pair
  {
    hide Tok, Expression;
    var val := Tok(style, pair.val, 0, rest);
    ExpressionInverts(style, pair.val, rest);
    assert PairToks(style, pair, rest)[1..] == [COLON] + val && ([COLON] + val)[1..] == val;
  }

  lemma MorePairsStep(style: Style, before: seq<Pair>, pair: Pair, first: Tokens, more: Tokens)
    requires first != [] && first[0].IDENT? && MapPair(first) == Ok(pair, more)
    ensures MorePairs(before, [COMMA] + Gap(style, first)) == MorePairs(before + [pair], more)
  {
    hide MapPair, Gap, SkipNewlines;
    SkipGap(style, first);
    assert ([COMMA] + Gap(style, first))[1..] == Gap(style, first);
  }

  lemma MorePairsEnd(style: Style, before: seq<Pair>, close: Tokens)
    requires Peek(close) == RBRACE
    ensures var r := MorePairs(before, Closing(style, close));
      r.Ok? && r.value == before && SkipNewlines(r.rest) == close
    ensures Peek(Closing(style, close)) in {COMMA, NEWLINE, RBRACE}
  {
    hide MapPair, Gap, SkipNewlines;
    SkipGap(style, close);
    assert ([COMMA] + Gap(style, close))[1..] == Gap(style, close);
    assert SkipNewlines(close) == close by { SettledAlready(close); }
  }

  lemma MorePairsHead(style: Style, pairs: seq<Pair>, close: Tokens)
    requires PairsPrintable(pairs) && Peek(close) == RBRACE
    ensures Peek(MorePairToks(style, pairs, close)) in {COMMA, NEWLINE, RBRACE}
  {
    hide PairToks, Gap;
    if pairs == [] { MorePairsEnd(style, [], close); }
  }

  lemma {:induction false} MorePairsInvert(style: Style, before: seq<Pair>, pairs: seq<Pair>, close: Tokens)
    requires PairsPrintable(pairs) && Peek(close) == RBRACE
    ensures var r := MorePairs(before, MorePairToks(style, pairs, close));
      r.Ok? && r.value == before + pairs && SkipNewlines(r.rest) == close
    decreases pairs
  {
    hide Tok, MapPair, Formed, Hangs, MorePairs, Gap, Closing, SkipNewlines;
    if pairs == [] {
      assert before + pairs == before;
      MorePairsEnd(style, before, close);
    } else {
      var more := MorePairToks(style, pairs[1..], close);
      MorePairsHead(style, pairs[1..], close);
      PairInverts(style, pairs[0], more);
      MorePairsStep(style, before, pairs[0], PairToks(style, pairs[0], more), more);
      MorePairsInvert(style, before + [pairs[0]], pairs[1..], close);
      assert before + [pairs[0]] + pairs[1..] == before + pairs;
    }
  }

  lemma {:induction false} InvertMap(style: Style, pairs: seq<Pair>, rest: Tokens)
    requires PairsPrintable(pairs)
    ensures Primary(Bare(style, MapLit(pairs), rest)) == Ok(MapLit(pairs), rest)
    decreases pairs, 2
  {
    var close := [RBRACE] + rest;
    MapPairsInvert(style, pairs, close);
    MapTaken(style, Pairs(style, pairs, close), pairs, rest);
    hide Pairs, MapPairs, Primary, MapBody, Gap;
  }

  lemma MapTaken(style: Style, body: Tokens, pairs: seq<Pair>, rest: Tokens)
    requires SkipNewlines(body) == body && MapPairs(body).Ok?
    requires MapPairs(body).value == pairs && SkipNewlines(MapPairs(body).rest) == [RBRACE] + rest
    ensures Primary([LBRACE] + Gap(style, body)) == Ok(MapLit(pairs), rest)
  {
    hide MapPairs, Gap, SkipNewlines;
    SkipGap(style, body);
    assert ([RBRACE] + rest)[1..] == rest;
    assert ([LBRACE] + Gap(style, body))[1..] == Gap(style, body);
    assert MapBody(Gap(style, body)) == Ok(MapLit(pairs), rest);
  }

  lemma {:induction false} MapPairsInvert(style: Style, pairs: seq<Pair>, close: Tokens)
    requires PairsPrintable(pairs) && Peek(close) == RBRACE
    ensures var r := MapPairs(Pairs(style, pairs, close));
      r.Ok? && r.value == pairs && SkipNewlines(r.rest) == close
    ensures SkipNewlines(Pairs(style, pairs, close)) == Pairs(style, pairs, close)
    decreases pairs, 1
  {
    hide Tok, MapPair, MorePairs, MorePairToks;
    if pairs == [] {
      SettledAlready(close);
    } else {
      var more := MorePairToks(style, pairs[1..], close);
      MorePairsHead(style, pairs[1..], close);
      PairInverts(style, pairs[0], more);
      MorePairsInvert(style, [pairs[0]], pairs[1..], close);
      assert [pairs[0]] + pairs[1..] == pairs;
    }
  }

  // ----- commands and pipelines -----

  /** The tokens of a variable's indexes, innermost first. */
  ghost function Tail(style: Style, e: Expr, rest: Tokens): Tokens
    requires Printable(e) && IsPlace(e)
  {
    if e.VarRef? then rest else Tail(style, e.obj, [LBRACKET] + Tok(style, e.index, 0, [RBRACKET] + rest))
  }

  function Base(e: Expr): string
    requires IsPlace(e)
  {
    if e.VarRef? then e.name else Base(e.obj)
  }

  lemma {:induction false} PlaceToks(style: Style, e: Expr, rest: Tokens)
    requires Printable(e) && IsPlace(e)
    ensures PlaceTok(style, e, rest) == [DOLLAR] + ([IDENT(Base(e))] + Tail(style, e, rest))
    decreases e
  {
    if e.IndexExpr? { PlaceToks(style, e.obj, [LBRACKET] + Tok(style, e.index, 0, [RBRACKET] + rest)); }
  }

  lemma {:induction false} PlaceInverts(style: Style, e: Expr, rest: Tokens)
    requires Printable(e) && IsPlace(e)
    ensures Indexes(VarRef(Base(e)), Tail(style, e, rest)) == Indexes(e, rest)
    decreases e, 5
  {
    if e.IndexExpr? {
      PlaceInverts(style, e.obj, [LBRACKET] + Tok(style, e.index, 0, [RBRACKET] + rest));
      IndexStep(style, e.obj, e.index, rest);
    }
  }

  /** What follows a row of arguments: a pipe, or what a pipeline ends before. */
  predicate EndsArgs(rest: Tokens) {
    rest != [] && (Peek(rest) == PIPE || EndsPipeline(rest))
  }

  /** The first token of an argument. */
  lemma ArgHead(style: Style, e: Expr, rest: Tokens)
    requires Printable(e) && (IsArg(e) || IsCallPipeline(e))
    ensures var ts := ArgTok(style, e, rest);
      && ts != [] && ts[0] != PIPE && ts[0] != LPAREN
      && (!e.ListLit? ==> ts[0] != LBRACKET)
      && (!e.ListLit? && !e.BoolLit? ==> LooksLikeArg(ts))
  {
    if IsPlace(e) {
      PlaceToks(style, e, rest);
    } else if e.PipelineExpr? {
      CallPipelineToks(style, e, rest);
    }
  }

  lemma ArgToksFirst(style: Style, args: seq<Expr>, rest: Tokens)
    requires args != [] && AllPrintable(args)
    ensures ArgToks(style, args, rest) == ArgTok(style, args[0], ArgToks(style, args[1..], rest))
  {
    hide ArgTok;
  }

  /** The call at the head of a pipeline is printed like any call. */
  lemma CallPipelineToks(style: Style, e: Expr, rest: Tokens)
    requires Printable(e) && IsCallPipeline(e)
    ensures CommandsPrintable(e.commands) && AllPrintable(e.commands[0].cmdArgs)
    ensures var call := e.commands[0].cmdArgs[0];
      AllPrintable(call.args) &&
      ArgTok(style, e, rest)
        == [IDENT(call.fn)] + ([LPAREN] + Items(style, call.args, [RPAREN] + Pipes(style, e.commands[1..], rest)))
  {
    assert CommandsPrintable(e.commands) && AllPrintable(e.commands[0].cmdArgs);
    var call, more := e.commands[0].cmdArgs[0], Pipes(style, e.commands[1..], rest);
    assert Printable(call);
    assert Bare(style, e, rest) == Bare(style, call, more);
  }

  /** One argument is read; what follows it cannot be taken for part of it. */
  lemma {:induction false} ArgInverts(style: Style, before: seq<Expr>, e: Expr, rest: Tokens)
    requires Printable(e) && (IsArg(e) || IsCallPipeline(e)) && rest != []
    requires IsPlace(e) ==> Peek(rest) != LBRACKET
    requires e.FnCallExpr? ==> Peek(rest) != PIPE
    requires e.PipelineExpr? ==> EndsPipeline(rest)
    ensures Args(before, ArgTok(style, e, rest)) == Args(before + [e], rest)
    decreases e, 7
  {
    hide ArgTok, Call, ListBody, Variable;
    ArgHead(style, e, rest);
    if IsPlace(e) {
      PlaceArgInverts(style, e, rest);
    } else if e.FnCallExpr? {
      CallArgInverts(style, e, rest);
    } else if e.ListLit? {
      ListArgInverts(style, e, rest);
    } else if e.PipelineExpr? {
      CallPipelineInverts(style, e, rest);
    } else {
      LiteralArg(style, before, e, rest);
    }
  }

  /** A literal is read as it is, a flag as its text and a negated number as the number. */
  lemma LiteralArg(style: Style, before: seq<Expr>, e: Expr, rest: Tokens)
    requires Printable(e) && (e.StringLit? || e.NumberLit? || e.BoolLit?)
    ensures Args(before, ArgTok(style, e, rest)) == Args(before + [e], rest)
  {
    var ts := ArgTok(style, e, rest);
    if IsFlag(e) && style.dash(e, rest) {
      FlagRead(before, e.value[1..], rest);
      assert "-" + e.value[1..] == e.value;
    } else if e.NumberLit? && Writable(Negate(e.num)) && style.dash(e, rest) {
      DashedNumberRead(before, Numeral(Negate(e.num)), rest);
      assert Negate(Negate(e.num)) == e.num;
    } else {
      assert ts == Bare(style, e, rest) && ts[1..] == rest;
    }
  }

  lemma FlagRead(before: seq<Expr>, name: string, rest: Tokens)
    ensures Args(before, [MINUS] + ([IDENT(name)] + rest)) == Args(before + [StringLit("-" + name)], rest)
  {
    var flag := [IDENT(name)] + rest;
    assert ([MINUS] + flag)[1..] == flag && flag[1..] == rest;
  }

  lemma DashedNumberRead(before: seq<Expr>, text: string, rest: Tokens)
    requires ReadNumber(text).Some?
    ensures Args(before, [MINUS] + ([NUMBER(text)] + rest))
         == Args(before + [NumberLit(Negate(ReadNumber(text).value))], rest)
  {
    var number := [NUMBER(text)] + rest;
    assert ([MINUS] + number)[1..] == number && number[1..] == rest;
  }

  lemma {:induction false} CallArgInverts(style: Style, e: Expr, rest: Tokens)
    requires Printable(e) && e.FnCallExpr? && Peek(rest) != PIPE
    ensures var ts := ArgTok(style, e, rest);
      && |ts| > 1 && ts[0].IDENT? && ts[1] == LPAREN
      && Call(ts[0].name, ts[1..]) == Ok(e, rest)
    decreases e, 6
  {
    CallInverts(style, e.fn, e.args, rest);
    assert ArgTok(style, e, rest) == Bare(style, e, rest);
    assert ArgTok(style, e, rest)[1..] == [LPAREN] + Items(style, e.args, [RPAREN] + rest);
    hide Call, Items;
  }

  lemma {:induction false} ListArgInverts(style: Style, e: Expr, rest: Tokens)
    requires Printable(e) && e.ListLit?
    ensures var ts := ArgTok(style, e, rest);
      ts != [] && ts[0] == LBRACKET && ListBody(ts[1..]) == Ok(e, rest)
    decreases e, 6
  {
    InvertList(style, e.elements, rest);
    var body := Gap(style, Elements(style, e.elements, [RBRACKET] + rest));
    assert ArgTok(style, e, rest) == [LBRACKET] + body;
    assert ([LBRACKET] + body)[1..] == body;
    hide ListBody, Elements, Gap;
  }

  lemma {:induction false} PlaceArgInverts(style: Style, e: Expr, rest: Tokens)
    requires Printable(e) && IsPlace(e) && Peek(rest) != LBRACKET
    ensures var ts := ArgTok(style, e, rest);
      ts != [] && ts[0] == DOLLAR && Variable(ts[1..]) == Ok(e, rest)
    decreases e, 6
  {
    hide Bare, Tok;
    PlaceToks(style, e, rest);
    PlaceInverts(style, e, rest);
    var after := [IDENT(Base(e))] + Tail(style, e, rest);
    assert ArgTok(style, e, rest)[1..] == after && after[1..] == Tail(style, e, rest);
    hide Tail, Expression;
  }

  /** A call takes the pipeline it heads with it. */
  lemma {:induction false} CallPipelineInverts(style: Style, e: Expr, rest: Tokens)
    requires Printable(e) && IsCallPipeline(e) && EndsPipeline(rest)
    ensures var ts := ArgTok(style, e, rest);
      && |ts| > 1 && ts[0].IDENT? && ts[1] == LPAREN
      && Call(ts[0].name, ts[1..]) == Ok(e, rest)
    decreases e, 0
  {
    var commands, call := e.commands, e.commands[0].cmdArgs[0];
    CallPipelineToks(style, e, rest);
    var more := Pipes(style, commands[1..], rest);
    CallInverts(style, call.fn, call.args, more);
    PipedInverts(style, [commands[0]], commands[1..], rest);
    assert [commands[0]] + commands[1..] == commands;
    assert commands[0] == Command(CALL, [call]);
    var after := [LPAREN] + Items(style, call.args, [RPAREN] + more);
    assert ArgTok(style, e, rest)[1..] == after;
    assert Peek(more) == PIPE;
    hide Call, Piped, Items;
  }

  lemma ArgsEnd(args: seq<Expr>, rest: Tokens)
    requires EndsArgs(rest)
    ensures Args(args, rest) == Ok(args, rest)
  {
  }

  lemma {:induction false} ArgsInvert(style: Style, before: seq<Expr>, args: seq<Expr>, rest: Tokens)
    requires AllPrintable(args) && InARow(args, Peek(rest) != PIPE) && EndsArgs(rest)
    ensures Args(before, ArgToks(style, args, rest)) == Ok(before + args, rest)
    decreases args
  {
    hide *;
    if args == [] {
      NoArgs(style, rest);
      ArgsEnd(before, rest);
      assert before + args == before;
    } else {
      NextArg(style, args, rest);
      ArgToksFirst(style, args, rest);
      ArgInverts(style, before, args[0], ArgToks(style, args[1..], rest));
      InARowRest(args, Peek(rest) != PIPE);
      ArgsInvert(style, before + [args[0]], args[1..], rest);
      assert before + [args[0]] + args[1..] == before + args;
    }
  }

  /** What follows the first argument of a row is no part of it. */
  lemma NextArg(style: Style, args: seq<Expr>, rest: Tokens)
    requires args != [] && AllPrintable(args) && InARow(args, Peek(rest) != PIPE) && EndsArgs(rest)
    ensures Printable(args[0]) && (IsArg(args[0]) || IsCallPipeline(args[0])) && AllPrintable(args[1..])
    ensures var more := ArgToks(style, args[1..], rest);
      && more != []
      && (IsPlace(args[0]) ==> Peek(more) != LBRACKET)
      && (args[0].FnCallExpr? ==> Peek(more) != PIPE)
      && (args[0].PipelineExpr? ==> EndsPipeline(more))
  {
    if |args| > 1 {
      hide Tok, Formed, Hangs;
      assert args[1..][0] == args[1];
      assert (IsArg(args[1]) || IsCallPipeline(args[1])) && Printable(args[1]);
      ArgHead(style, args[1], ArgToks(style, args[1..][1..], rest));
    }
  }

  lemma InARowRest(args: seq<Expr>, last: bool)
    requires args != [] && InARow(args, last)
    ensures InARow(args[1..], last)
  {
  }

  lemma PipesEndArgs(style: Style, commands: seq<Command>, rest: Tokens)
    requires CommandsPrintable(commands) && EndsPipeline(rest)
    ensures EndsArgs(Pipes(style, commands, rest)) && (Peek(Pipes(style, commands, rest)) != PIPE <==> commands == [])
  {
  }

  lemma PipedStep(style: Style, before: seq<Command>, c: Command, args: Tokens, more: Tokens)
    requires Args([], args) == Ok(c.cmdArgs, more)
    ensures Piped(before, [PIPE] + Gap(style, [CommandToken(c.cmd)] + args)) == Piped(before + [c], more)
  {
    hide Args, Gap, SkipNewlines;
    var name := [CommandToken(c.cmd)] + args;
    SkipGap(style, name);
    assert ([PIPE] + Gap(style, name))[1..] == Gap(style, name) && name[1..] == args;
  }

  lemma PipedEnds(before: seq<Command>, rest: Tokens)
    requires EndsPipeline(rest)
    ensures Piped(before, rest) == Ok(PipelineExpr(before), rest)
  {
  }

  lemma {:induction false} PipedInverts(style: Style, before: seq<Command>, commands: seq<Command>, rest: Tokens)
    requires CommandsPrintable(commands) && EndsPipeline(rest)
    requires forall i :: 0 <= i < |commands| ==> InARow(commands[i].cmdArgs, i == |commands| - 1)
    ensures Piped(before, Pipes(style, commands, rest)) == Ok(PipelineExpr(before + commands), rest)
    decreases commands
  {
    hide ArgToks, Args, InARow, EndsArgs, Formed, Hangs, Piped;
    if commands == [] {
      PipedEnds(before, rest);
      assert before + commands == before;
    } else {
      var head, more := commands[0], Pipes(style, commands[1..], rest);
      PipesEndArgs(style, commands[1..], rest);
      assert AllPrintable(head.cmdArgs);
      ArgsInvert(style, [], head.cmdArgs, more);
      assert [] + head.cmdArgs == head.cmdArgs;
      PipedStep(style, before, head, ArgToks(style, head.cmdArgs, more), more);
      PipedInverts(style, before + [head], commands[1..], rest);
      assert before + [head] + commands[1..] == before + commands;
    }
  }

  /** A pipeline before what it can end before. */
  lemma {:induction false} InvertPipe(style: Style, e: Expr, rest: Tokens)
    requires Formed(e) && e.PipelineExpr? && !IsLone(e.commands) && EndsPipeline(rest)
    ensures Primary(Bare(style, e, rest)) == Ok(e, rest)
    decreases e, 0
  {
    hide Piped, Pipes, Args, ArgToks, InARow, Tok;
    var commands := e.commands;
    assert CommandsPrintable(commands);
    assert AllPrintable(commands[0].cmdArgs);
    var head, more := commands[0], Pipes(style, commands[1..], rest);
    PipesEndArgs(style, commands[1..], rest);
    PipedInverts(style, [head], commands[1..], rest);
    assert [head] + commands[1..] == commands;
    if IsCallHead(commands) {
      CallPipelineHead(style, e, rest);
    } else {
      ArgsInvert(style, [], head.cmdArgs, more);
      assert [] + head.cmdArgs == head.cmdArgs;
      HeadInverts(style, commands, more);
    }
  }

  lemma {:induction false} CallPipelineHead(style: Style, e: Expr, rest: Tokens)
    requires Formed(e) && IsCallPipeline(e)
    ensures CommandsPrintable(e.commands)
    ensures var more := Pipes(style, e.commands[1..], rest);
      Peek(more) == PIPE && Primary(Bare(style, e, rest)) == Piped([e.commands[0]], more)
    decreases e.commands, 4
  {
    assert CommandsPrintable(e.commands) && AllPrintable(e.commands[0].cmdArgs);
    var call, more := e.commands[0].cmdArgs[0], Pipes(style, e.commands[1..], rest);
    assert Printable(call) && AllPrintable(call.args);
    assert e.commands[0] == Command(CALL, [call]);
    InvertCall(style, call.fn, call.args, more);
    assert Bare(style, e, rest) == Bare(style, call, more);
    hide Piped, Primary;
  }

  /** The head of a pipeline that is not a call is read as a command. */
  lemma HeadInverts(style: Style, commands: seq<Command>, more: Tokens)
    requires commands != [] && AllPrintable(commands[0].cmdArgs) && HeadTells(commands)
    requires InARow(commands[0].cmdArgs, |commands| == 1) && EndsArgs(more) && (Peek(more) == PIPE <==> |commands| >= 2)
    ensures var head := commands[0];
      Primary([CommandToken(head.cmd)] + ArgToks(style, head.cmdArgs, more))
        == CommandFrom(head.cmd, ArgToks(style, head.cmdArgs, more))
  {
    var head := commands[0];
    var args := ArgToks(style, head.cmdArgs, more);
    TellingHead(style, commands, more);
    hide *;
    if Dotted(head.cmd) {
      DottedHead(head.cmd, args);
    } else {
      NameHead(head.cmd, args);
    }
  }

  /** What comes after a bare name that is a command. */
  lemma TellingHead(style: Style, commands: seq<Command>, more: Tokens)
    requires commands != [] && AllPrintable(commands[0].cmdArgs) && HeadTells(commands)
    requires InARow(commands[0].cmdArgs, |commands| == 1) && EndsArgs(more) && (Peek(more) == PIPE <==> |commands| >= 2)
    ensures var args := ArgToks(style, commands[0].cmdArgs, more);
      Dotted(commands[0].cmd) || (LooksLikeArg(args) && Peek(args) != LPAREN) || Peek(args) == PIPE
  {
    var args := commands[0].cmdArgs;
    hide Tok, Formed, Hangs;
    if args == [] {
      NoArgs(style, more);
    } else {
      assert Printable(args[0]) && (IsArg(args[0]) || IsCallPipeline(args[0]));
      ArgHead(style, args[0], ArgToks(style, args[1..], more));
      ArgToksFirst(style, args, more);
    }
  }

  lemma DottedHead(name: string, args: Tokens)
    requires Dotted(name)
    ensures Primary([CommandToken(name)] + args) == CommandFrom(name, args)
  {
    assert ([CommandToken(name)] + args)[1..] == args;
    hide CommandFrom;
  }

  lemma NameHead(name: string, args: Tokens)
    requires !Dotted(name) && ((LooksLikeArg(args) && Peek(args) != LPAREN) || Peek(args) == PIPE)
    ensures Primary([CommandToken(name)] + args) == CommandFrom(name, args)
  {
    assert ([CommandToken(name)] + args)[1..] == args;
    hide LooksLikeArg, Piped;
    if Peek(args) == PIPE { ArgsEnd([], args); }
  }

  lemma NoArgs(style: Style, more: Tokens)
    ensures ArgToks(style, [], more) == more
  {
  }
}
