/** What a parse does with the tokens it is given: none of those that mean something is dropped,
    repeated, exchanged or made up. */
module Conservation {
  import opened Wrappers
  import opened Syntax
  import opened Grammar
  import opened Lexer
  import opened SourceInversion

  type Tokens = seq<Token>

  /** A word, a quoted text, a number up to its sign, or any other token that means something. */
  datatype Mark = Word(name: string) | Quoted(text: string) | Amount(n: Num) | Sign(t: Token)

  // ----- the marks of tokens -----

  /** The reserved command name leaves no mark, because a tree may have it without a token for it. */
  function Name(name: string): seq<Mark> {
    if name == CALL then [] else [Word(name)]
  }

  /** A text with a dash in front may have been written as a flag. */
  function TextMarks(s: string): seq<Mark> {
    if s != "" && s[0] == '-' then Name(s[1..]) else [Quoted(s)]
  }

  function Unsigned(n: Num): Num {
    match n case Int(i) => Int(if i < 0 then -i else i) case Float(r) => Float(if r < 0.0 then -r else r)
  }

  function TokenMarks(t: Token): seq<Mark> {
    match t
    case STRING(s) => TextMarks(s)
    case NUMBER(s) => (match ReadNumber(s) case Some(n) => [Amount(Unsigned(n))] case None => [])
    case IDENT(name) => Name(name)
    case DOTTED(name) => Name(name)
    case _ => if t in {NEWLINE, EOF, DOLLAR, MINUS, COMMA, LPAREN, RPAREN} then [] else [Sign(t)]
  }

  /** The marks of tokens in order; a comma before a closing bracket or brace leaves none. */
  function Marks(ts: Tokens): seq<Mark> {
    if ts == [] then []
    else
      (if ts[0] == COMMA && Peek(SkipNewlines(ts[1..])) !in {RBRACKET, RBRACE} then [Sign(COMMA)]
       else TokenMarks(ts[0])) + Marks(ts[1..])
  }

  /** Opening parentheses less closing ones. */
  function Open(ts: Tokens): int {
    if ts == [] then 0
    else (if ts[0] == LPAREN then 1 else if ts[0] == RPAREN then -1 else 0) + Open(ts[1..])
  }

  /** Two tokens that never stand side by side: a newline where a line cannot end, or a dollar sign
      that is not before a name, or is before one that is not used but given. */
  predicate Misplaced(t: Token, next: Token) {
    || (next == NEWLINE && t in {LET, FOR, IN, FN, CATCH, IMPORT, IF, ELIF, ASSIGN, DOLLAR, LPAREN, COLON,
                                 NOT, AND, OR, EQ, NE, LT, GT, LE, GE, PLUS, MINUS, STAR, SLASH})
    || (next == DOLLAR && t in {LET, FOR, FN, CATCH, IMPORT, PIPE})
    || (t == DOLLAR && !next.IDENT?)
  }

  function Breaks(ts: Tokens): nat {
    if ts == [] then 0 else (if Misplaced(ts[0], Peek(ts[1..])) then 1 else 0) + Breaks(ts[1..])
  }

  // ----- the marks of trees -----

  function OpMarks(op: BinaryOp): seq<Mark> {
    match op
    case OrOp => [Sign(OR)] case AndOp => [Sign(AND)]
    case EqOp => [Sign(EQ)] case NeOp => [Sign(NE)]
    case LtOp => [Sign(LT)] case GtOp => [Sign(GT)] case LeOp => [Sign(LE)] case GeOp => [Sign(GE)]
    case AddOp => [Sign(PLUS)] case SubOp => []
    case MulOp => [Sign(STAR)] case DivOp => [Sign(SLASH)]
  }

  function ExprMarks(e: Expr): seq<Mark>
    decreases e, 0
  {
    match e
    case StringLit(s) => TextMarks(s)
    case NumberLit(n) => [Amount(Unsigned(n))]
    case BoolLit(b) => [Sign(if b then TRUE else FALSE)]
    case NullLit => [Sign(NULL)]
    case ListLit(es) => [Sign(LBRACKET)] + ListMarks(es) + [Sign(RBRACKET)]
    case MapLit(pairs) => [Sign(LBRACE)] + PairsMarks(pairs) + [Sign(RBRACE)]
    case VarRef(x) => Name(x)
    case IndexExpr(o, i) => ExprMarks(o) + [Sign(LBRACKET)] + ExprMarks(i) + [Sign(RBRACKET)]
    case BinOp(l, op, r) => ExprMarks(l) + OpMarks(op) + ExprMarks(r)
    case UnaryOp(op, e) => (if op == NotOp then [Sign(NOT)] else []) + ExprMarks(e)
    case FnCallExpr(f, es) => Name(f) + ListMarks(es)
    case PipelineExpr(commands) => CommandsMarks(commands)
  }


  /** With commas between them. */
  function ListMarks(es: seq<Expr>): seq<Mark>
    decreases es, 0
  {
    if es == [] then []
    else (if |es| == 1 then [] else ListMarks(es[..|es| - 1]) + [Sign(COMMA)]) + ExprMarks(es[|es| - 1])
  }

  /** One after the other. */
  function RowMarks(es: seq<Expr>): seq<Mark>
    decreases es, 0
  {
    if es == [] then [] else RowMarks(es[..|es| - 1]) + ExprMarks(es[|es| - 1])
  }

  function PairMarks(p: Pair): seq<Mark>
    decreases p, 0
  {
    Name(p.key) + [Sign(COLON)] + ExprMarks(p.val)
  }

  function PairsMarks(ps: seq<Pair>): seq<Mark>
    decreases ps, 0
  {
    if ps == [] then []
    else (if |ps| == 1 then [] else PairsMarks(ps[..|ps| - 1]) + [Sign(COMMA)]) + PairMarks(ps[|ps| - 1])
  }

  function CommandMarks(c: Command): seq<Mark>
    decreases c, 0
  {
    Name(c.cmd) + RowMarks(c.cmdArgs)
  }

  function CommandsMarks(cs: seq<Command>): seq<Mark>
    decreases cs, 0
  {
    if cs == [] then []
    else (if |cs| == 1 then [] else CommandsMarks(cs[..|cs| - 1]) + [Sign(PIPE)]) + CommandMarks(cs[|cs| - 1])
  }

  function NamesMarks(names: seq<string>): seq<Mark> {
    if names == [] then []
    else
      (if |names| == 1 then [] else NamesMarks(names[..|names| - 1]) + [Sign(COMMA)]) + Name(names[|names| - 1])
  }

  function StmtMarks(s: Stmt): seq<Mark>
    decreases s, 0
  {
    match s
    case LetStmt(x, e) => [Sign(LET)] + Name(x) + [Sign(ASSIGN)] + ExprMarks(e)
    case AssignStmt(place, e) => ExprMarks(place) + [Sign(ASSIGN)] + ExprMarks(e)
    case IfStmt(cond, body, elifs, els) =>
      [Sign(IF)] + ExprMarks(cond) + BracedMarks(body) + ElifsMarks(elifs)
      + (match els case NoElse => [] case Else(b) => [Sign(ELSE)] + BracedMarks(b))
    case ForStmt(x, e, body) => [Sign(FOR)] + Name(x) + [Sign(IN)] + ExprMarks(e) + BracedMarks(body)
    case FnDef(f, params, body) => [Sign(FN)] + Name(f) + NamesMarks(params) + BracedMarks(body)
    case ReturnStmt(e) => [Sign(RETURN)] + (match e case None => [] case Some(e) => ExprMarks(e))
    case TryCatch(body, x, handler) =>
      [Sign(TRY)] + BracedMarks(body) + [Sign(CATCH)] + Name(x) + BracedMarks(handler)
    case ImportStmt(path) => [Sign(IMPORT)] + TextMarks(path)
    case ExprStmt(e) => ExprMarks(e)
  }

  function BlockMarks(b: seq<Stmt>): seq<Mark>
    decreases b, 0
  {
    if b == [] then [] else BlockMarks(b[..|b| - 1]) + StmtMarks(b[|b| - 1])
  }

  function BracedMarks(b: seq<Stmt>): seq<Mark>
    decreases b, 1
  {
    [Sign(LBRACE)] + BlockMarks(b) + [Sign(RBRACE)]
  }

  function ElifMarks(e: Elif): seq<Mark>
    decreases e, 0
  {
    ExprMarks(e.test) + BracedMarks(e.block)
  }

  function ElifsMarks(es: seq<Elif>): seq<Mark>
    decreases es, 0
  {
    if es == [] then [] else ElifsMarks(es[..|es| - 1]) + [Sign(ELIF)] + ElifMarks(es[|es| - 1])
  }

  // ----- accounts -----

  /** From tokens with `w` read before them to tokens with `v` read before them, nothing is lost. */
  predicate Moves(w: seq<Mark>, ts: Tokens, v: seq<Mark>, rest: Tokens) {
    && w + Marks(ts) == v + Marks(rest) && Open(ts) == Open(rest) && Breaks(ts) == Breaks(rest)
    && EndsIn(ts, rest)
  }

  /** The second tokens are the last ones of the first. */
  predicate EndsIn(ts: Tokens, rest: Tokens) {
    |rest| <= |ts| && ts[|ts| - |rest|..] == rest
  }

  lemma EndsOnwards(a: Tokens, b: Tokens, c: Tokens)
    requires EndsIn(a, b) && EndsIn(b, c)
    ensures EndsIn(a, c)
  {
    assert a[|a| - |c|..] == a[|a| - |b|..][|b| - |c|..];
  }

  lemma Onwards(u: seq<Mark>, a: Tokens, v: seq<Mark>, b: Tokens, w: seq<Mark>, c: Tokens)
    requires Moves(u, a, v, b) && Moves(v, b, w, c)
    ensures Moves(u, a, w, c)
  {
    EndsOnwards(a, b, c);
    hide EndsIn;
  }

  /** What is read before makes no difference. */
  lemma After(x: seq<Mark>, w: seq<Mark>, ts: Tokens, v: seq<Mark>, rest: Tokens)
    requires Moves(w, ts, v, rest)
    ensures Moves(x + w, ts, x + v, rest)
  {
    assert (x + w) + Marks(ts) == x + (w + Marks(ts));
    assert (x + v) + Marks(rest) == x + (v + Marks(rest));
  }

  /** Reading on: what is read next comes after what was. */
  lemma Then(u: seq<Mark>, a: Tokens, v: seq<Mark>, b: Tokens, w: seq<Mark>, c: Tokens)
    requires Moves(u, a, v, b) && Moves([], b, w, c)
    ensures Moves(u, a, v + w, c)
  {
    After(v, [], b, w, c);
    assert v + [] == v;
    Onwards(u, a, v, b, v + w, c);
  }

  lemma Still(w: seq<Mark>, ts: Tokens)
    ensures Moves(w, ts, w, ts)
  {
  }

  /** One token that is neither a comma nor a parenthesis. */
  lemma One(w: seq<Mark>, ts: Tokens)
    requires ts != [] && ts[0] !in {COMMA, LPAREN, RPAREN} && !Misplaced(ts[0], Peek(ts[1..]))
    ensures Moves(w, ts, w + TokenMarks(ts[0]), ts[1..])
  {
    hide TokenMarks, Misplaced;
    assert Marks(ts) == TokenMarks(ts[0]) + Marks(ts[1..]);
    assert w + (TokenMarks(ts[0]) + Marks(ts[1..])) == (w + TokenMarks(ts[0])) + Marks(ts[1..]);
  }

  /** A comma that separates. */
  lemma Separator(w: seq<Mark>, ts: Tokens)
    requires ts != [] && ts[0] == COMMA && Peek(SkipNewlines(ts[1..])) !in {RBRACKET, RBRACE}
    ensures Moves(w, ts, w + [Sign(COMMA)], ts[1..])
  {
    assert w + ([Sign(COMMA)] + Marks(ts[1..])) == (w + [Sign(COMMA)]) + Marks(ts[1..]);
  }

  /** A comma that only ends. */
  lemma Trailing(w: seq<Mark>, ts: Tokens)
    requires ts != [] && ts[0] == COMMA && Peek(SkipNewlines(ts[1..])) in {RBRACKET, RBRACE}
    ensures Moves(w, ts, w, ts[1..])
  {
    assert [] + Marks(ts[1..]) == Marks(ts[1..]);
  }

  lemma {:induction false} Skipped(w: seq<Mark>, ts: Tokens)
    ensures Moves(w, ts, w, SkipNewlines(ts))
    decreases |ts|
  {
    if ts != [] && ts[0] == NEWLINE {
      One(w, ts);
      assert w + TokenMarks(NEWLINE) == w;
      Skipped(w, ts[1..]);
      Onwards(w, ts, w, ts[1..], w, SkipNewlines(ts));
    }
  }

  lemma ParenthesisTaken(ts: Tokens)
    requires ts != [] && ts[0] in {LPAREN, RPAREN} && !Misplaced(ts[0], Peek(ts[1..]))
    ensures Marks(ts) == Marks(ts[1..]) && Breaks(ts) == Breaks(ts[1..]) && EndsIn(ts, ts[1..])
    ensures Open(ts) == Open(ts[1..]) + if ts[0] == LPAREN then 1 else -1
  {
    assert [] + Marks(ts[1..]) == Marks(ts[1..]);
  }

  /** Parentheses around what is read. */
  lemma Enclosed(w: seq<Mark>, ts: Tokens, v: seq<Mark>, mid: Tokens)
    requires ts != [] && ts[0] == LPAREN && Peek(ts[1..]) != NEWLINE && Moves(w, ts[1..], v, mid)
    requires mid != [] && mid[0] == RPAREN
    ensures Moves(w, ts, v, mid[1..])
  {
    hide Marks, Open, Breaks, EndsIn;
    ParenthesisTaken(ts);
    ParenthesisTaken(mid);
    EndsOnwards(ts, ts[1..], mid);
    EndsOnwards(ts, mid, mid[1..]);
  }

  // ----- what expressions begin with -----

  predicate Starts(t: Token) {
    t.STRING? || t.NUMBER? || t.IDENT? || t.DOTTED?
    || t in {TRUE, FALSE, NULL, LBRACKET, LBRACE, LPAREN, DOLLAR, NOT, MINUS}
  }

  lemma {:induction false} LadderStarts(level: nat, ts: Tokens)
    requires level <= UNARY && Ladder(level, ts).Ok?
    ensures Starts(Peek(ts))
    decreases UNARY - level
  {
    hide Climb, Unary;
    if level < UNARY { LadderStarts(level + 1, ts); } else { UnaryStarts(ts); }
  }

  lemma UnaryStarts(ts: Tokens)
    requires Unary(ts).Ok?
    ensures Starts(Peek(ts))
  {
    hide Primary, Indexes;
    if ts == [] || (ts[0] != NOT && ts[0] != MINUS) { PrimaryStarts(ts); }
  }

  lemma PrimaryStarts(ts: Tokens)
    requires Primary(ts).Ok?
    ensures Starts(Peek(ts))
  {
    hide Expression, ListBody, MapBody, Variable, CommandFrom, CommandOrVar, Call;
  }

  lemma ExpressionStarts(ts: Tokens)
    requires Expression(ts).Ok?
    ensures ts != [] && Starts(ts[0])
  {
    LadderStarts(0, ts);
    hide Ladder;
  }

  /** The token before an expression, if it is none that a dollar sign must not follow. */
  lemma OneBefore(w: seq<Mark>, ts: Tokens)
    requires ts != [] && ts[0] !in {COMMA, LPAREN, RPAREN, LET, FOR, FN, CATCH, IMPORT, PIPE, DOLLAR}
    requires Starts(Peek(ts[1..]))
    ensures Moves(w, ts, w + TokenMarks(ts[0]), ts[1..])
  {
    One(w, ts);
  }

  // ----- expressions -----

  ghost predicate Kept(w: seq<Mark>, ts: Tokens, r: Parsed<Expr>) {
    r.Ok? ==> Moves(w, ts, ExprMarks(r.value), r.rest)
  }

  lemma {:induction false} ExpressionKept(ts: Tokens)
    ensures Kept([], ts, Expression(ts))
    decreases |ts|, 20
  {
    LadderKept(0, ts);
  }

  lemma {:induction false} LadderKept(level: nat, ts: Tokens)
    requires level <= UNARY
    ensures Kept([], ts, Ladder(level, ts))
    decreases |ts|, 10 + UNARY - level
  {
    hide Moves, ExprMarks, Climb, Unary;
    if level == UNARY {
      UnaryKept(ts);
    } else {
      LadderKept(level + 1, ts);
      var left := Ladder(level + 1, ts);
      if left.Ok? {
        ClimbKept(level, left.value, left.rest);
        var r := Climb(level, left.value, left.rest);
        if r.Ok? { Onwards([], ts, ExprMarks(left.value), left.rest, ExprMarks(r.value), r.rest); }
      }
    }
  }

  lemma OperatorMarks(level: nat, ts: Tokens)
    requires OpAt(level, Peek(ts)).Some? && ts != []
    ensures TokenMarks(ts[0]) == OpMarks(OpAt(level, Peek(ts)).value)
    ensures ts[0] in {OR, AND, EQ, NE, LT, GT, LE, GE, PLUS, MINUS, STAR, SLASH}
  {
  }

  lemma BinaryMarks(l: Expr, op: BinaryOp, r: Expr)
    ensures ExprMarks(BinOp(l, op, r)) == ExprMarks(l) + OpMarks(op) + ExprMarks(r)
  {
  }

  lemma {:induction false} ClimbKept(level: nat, left: Expr, ts: Tokens)
    requires level < UNARY
    ensures Kept(ExprMarks(left), ts, Climb(level, left, ts))
    decreases |ts|, 20
  {
    hide Moves, ExprMarks, Ladder, TokenMarks, OpMarks;
    var op := OpAt(level, Peek(ts));
    if op.None? || ts == [] {
      Still(ExprMarks(left), ts);
    } else {
      var right := Ladder(level + 1, ts[1..]);
      if right.Ok? {
        var e := BinOp(left, op.value, right.value);
        LadderStarts(level + 1, ts[1..]);
        OperatorMarks(level, ts);
        OneBefore(ExprMarks(left), ts);
        LadderKept(level + 1, ts[1..]);
        Then(ExprMarks(left), ts, ExprMarks(left) + OpMarks(op.value), ts[1..], ExprMarks(right.value), right.rest);
        BinaryMarks(left, op.value, right.value);
        if level != COMPARE {
          ClimbKept(level, e, right.rest);
          var r := Climb(level, e, right.rest);
          if r.Ok? { Onwards(ExprMarks(left), ts, ExprMarks(e), right.rest, ExprMarks(r.value), r.rest); }
        }
      }
    }
  }

  lemma PrefixMarks(t: Token, op: PrefixOp, e: Expr)
    requires t == if op == NotOp then NOT else MINUS
    ensures [] + TokenMarks(t) + ExprMarks(e) == ExprMarks(UnaryOp(op, e))
  {
  }

  lemma {:induction false} UnaryKept(ts: Tokens)
    ensures Kept([], ts, Unary(ts))
    decreases |ts|, 9
  {
    hide Moves, Postfix, ExprMarks, TokenMarks;
    if ts != [] && (ts[0] == NOT || ts[0] == MINUS) {
      var e := Unary(ts[1..]);
      if e.Ok? {
        LadderStarts(UNARY, ts[1..]);
        OneBefore([], ts);
        UnaryKept(ts[1..]);
        Then([], ts, [] + TokenMarks(ts[0]), ts[1..], ExprMarks(e.value), e.rest);
        PrefixMarks(ts[0], if ts[0] == NOT then NotOp else NegOp, e.value);
      }
    } else {
      PostfixKept(ts);
    }
  }

  lemma {:induction false} PostfixKept(ts: Tokens)
    ensures Kept([], ts, Postfix(ts))
    decreases |ts|, 8
  {
    hide Moves, ExprMarks, Primary, Indexes;
    PrimaryKept(ts);
    var e := Primary(ts);
    if e.Ok? {
      IndexesKept(e.value, e.rest);
      var r := Indexes(e.value, e.rest);
      if r.Ok? { Onwards([], ts, ExprMarks(e.value), e.rest, ExprMarks(r.value), r.rest); }
    }
  }

  lemma IndexMarks(o: Expr, i: Expr)
    ensures ExprMarks(IndexExpr(o, i)) == ExprMarks(o) + [Sign(LBRACKET)] + ExprMarks(i) + [Sign(RBRACKET)]
    ensures TokenMarks(LBRACKET) == [Sign(LBRACKET)] && TokenMarks(RBRACKET) == [Sign(RBRACKET)]
  {
  }

  /** A closing bracket or brace. */
  lemma Closed(w: seq<Mark>, ts: Tokens)
    requires ts != [] && ts[0] in {RBRACKET, RBRACE}
    ensures Moves(w, ts, w + [Sign(ts[0])], ts[1..])
  {
    One(w, ts);
  }

  lemma {:induction false} IndexesKept(e: Expr, ts: Tokens)
    ensures Kept(ExprMarks(e), ts, Indexes(e, ts))
    decreases |ts|, 0
  {
    hide Moves, ExprMarks, Expression, TokenMarks;
    if Peek(ts) != LBRACKET {
      Still(ExprMarks(e), ts);
    } else {
      var i := Expression(ts[1..]);
      if i.Ok? && Eat(i.rest, RBRACKET).Ok? {
        var next := IndexExpr(e, i.value);
        IndexMarks(e, i.value);
        ExpressionStarts(ts[1..]);
        OneBefore(ExprMarks(e), ts);
        ExpressionKept(ts[1..]);
        var w := ExprMarks(e) + [Sign(LBRACKET)];
        Then(ExprMarks(e), ts, w, ts[1..], ExprMarks(i.value), i.rest);
        Closed(w + ExprMarks(i.value), i.rest);
        Onwards(ExprMarks(e), ts, w + ExprMarks(i.value), i.rest, ExprMarks(next), i.rest[1..]);
        IndexesKept(next, i.rest[1..]);
        var r := Indexes(next, i.rest[1..]);
        if r.Ok? { Onwards(ExprMarks(e), ts, ExprMarks(next), i.rest[1..], ExprMarks(r.value), r.rest); }
      }
    }
  }

  lemma LiteralMarks(ts: Tokens, e: Expr)
    requires ts != [] && (ts[0].STRING? || ts[0].NUMBER? || ts[0] in {TRUE, FALSE, NULL})
    requires match ts[0]
      case STRING(s) => e == StringLit(s)
      case NUMBER(s) => ReadNumber(s).Some? && e == NumberLit(ReadNumber(s).value)
      case TRUE => e == BoolLit(true)
      case FALSE => e == BoolLit(false)
      case _ => e == NullLit
    ensures TokenMarks(ts[0]) == ExprMarks(e)
    ensures forall w: seq<Mark> :: Moves(w, ts, w + ExprMarks(e), ts[1..])
  {
    hide Moves, ReadNumber;
    forall w: seq<Mark> ensures Moves(w, ts, w + ExprMarks(e), ts[1..]) { One(w, ts); }
  }

  lemma {:induction false} PrimaryKept(ts: Tokens)
    ensures Kept([], ts, Primary(ts))
    decreases |ts|, 7
  {
    hide Moves, ExprMarks, Expression, Variable, ListBody, MapBody, CommandFrom, CommandOrVar, Call, ReadNumber;
    if ts != [] {
      var t, rest, r := ts[0], ts[1..], Primary(ts);
      if !r.Ok? {
      } else if t.STRING? || t.NUMBER? || t in {TRUE, FALSE, NULL} {
        LiteralMarks(ts, r.value);
        assert [] + ExprMarks(r.value) == ExprMarks(r.value);
        assert Moves([], ts, [] + ExprMarks(r.value), ts[1..]);
      } else if t == LBRACKET {
        ListKept(rest);
        Opened(ts, r.value, r.rest);
      } else if t == LBRACE {
        MapKept(rest);
        Opened(ts, r.value, r.rest);
      } else if t == LPAREN {
        var inner := Expression(rest);
        ExpressionStarts(rest);
        ExpressionKept(rest);
        Enclosed([], ts, ExprMarks(inner.value), inner.rest);
      } else if t == DOLLAR {
        VariableKept(rest);
        Dollar([], ts, ExprMarks(r.value), r.rest);
      } else if t.DOTTED? {
        NameRead([], ts);
        CommandKept(t.name, rest);
        Onwards([], ts, Name(t.name), rest, ExprMarks(r.value), r.rest);
      } else if t.IDENT? {
        NameRead([], ts);
        if Peek(rest) == LPAREN { CallKept(t.name, rest); } else { CommandOrVarKept(t.name, rest); }
        Onwards([], ts, Name(t.name), rest, ExprMarks(r.value), r.rest);
      }
    }
  }

  /** A list or map after its opening token. */
  lemma Opened(ts: Tokens, e: Expr, rest: Tokens)
    requires ts != [] && ts[0] in {LBRACKET, LBRACE} && Moves([Sign(ts[0])], ts[1..], ExprMarks(e), rest)
    ensures Moves([], ts, ExprMarks(e), rest)
  {
    hide Moves, ExprMarks;
    One([], ts);
    assert [] + TokenMarks(ts[0]) == [Sign(ts[0])];
    Onwards([], ts, [Sign(ts[0])], ts[1..], ExprMarks(e), rest);
  }

  /** A dollar sign before a name. */
  lemma Dollar(w: seq<Mark>, ts: Tokens, v: seq<Mark>, rest: Tokens)
    requires ts != [] && ts[0] == DOLLAR && Peek(ts[1..]).IDENT? && Moves(w, ts[1..], v, rest)
    ensures Moves(w, ts, v, rest)
  {
    One(w, ts);
    assert w + TokenMarks(DOLLAR) == w;
    Onwards(w, ts, w, ts[1..], v, rest);
  }

  /** A name, dotted or not. */
  lemma NameRead(w: seq<Mark>, ts: Tokens)
    requires ts != [] && (ts[0].IDENT? || ts[0].DOTTED?)
    ensures Moves(w, ts, w + Name(ts[0].name), ts[1..])
    ensures w == [] ==> w + Name(ts[0].name) == Name(ts[0].name)
  {
    One(w, ts);
  }

  lemma {:induction false} VariableKept(ts: Tokens)
    ensures Kept([], ts, Variable(ts)) && (Variable(ts).Ok? ==> Peek(ts).IDENT?)
    decreases |ts|, 1
  {
    hide Moves, Indexes;
    if EatIdent(ts).Ok? {
      NameRead([], ts);
      IndexesKept(VarRef(ts[0].name), ts[1..]);
      var r := Indexes(VarRef(ts[0].name), ts[1..]);
      if r.Ok? { Onwards([], ts, Name(ts[0].name), ts[1..], ExprMarks(r.value), r.rest); }
    }
  }

  // ----- lists, maps and calls -----

  ghost predicate KeptAll(w: seq<Mark>, ts: Tokens, r: Parsed<seq<Expr>>) {
    r.Ok? ==> Moves(w, ts, ListMarks(r.value), r.rest)
  }

  lemma OneListed(e: Expr)
    ensures ListMarks([e]) == ExprMarks(e)
  {
    hide ExprMarks;
    assert [e][..0] == [];
  }

  lemma OneMoreListed(es: seq<Expr>, e: Expr)
    requires es != []
    ensures ListMarks(es + [e]) == ListMarks(es) + [Sign(COMMA)] + ExprMarks(e)
  {
    hide ExprMarks;
    assert (es + [e])[..|es|] == es;
  }

  lemma SkipsNothing(ts: Tokens)
    requires Peek(ts) != NEWLINE
    ensures SkipNewlines(ts) == ts
  {
  }

  lemma {:induction false} MoreArgsKept(args: seq<Expr>, ts: Tokens)
    requires args != []
    ensures KeptAll(ListMarks(args), ts, MoreArgs(args, ts))
    decreases |ts|, 1
  {
    hide Moves, ListMarks, ExprMarks, Expression;
    if Peek(ts) != COMMA {
      Still(ListMarks(args), ts);
    } else {
      var e := Expression(ts[1..]);
      if e.Ok? {
        ExpressionStarts(ts[1..]);
        SkipsNothing(ts[1..]);
        MoreListed(args, e.value, ts, ts[1..], e.rest);
        MoreArgsKept(args + [e.value], e.rest);
        var r := MoreArgs(args + [e.value], e.rest);
        if r.Ok? { Onwards(ListMarks(args), ts, ListMarks(args + [e.value]), e.rest, ListMarks(r.value), r.rest); }
      }
    }
  }

  /** A comma, newlines where they may be, and one more element. */
  lemma MoreListed(es: seq<Expr>, e: Expr, ts: Tokens, at: Tokens, rest: Tokens)
    requires es != [] && Peek(ts) == COMMA && at == SkipNewlines(ts[1..]) && Starts(Peek(at))
    requires Expression(at) == Ok(e, rest) && |at| < |ts|
    ensures Moves(ListMarks(es), ts, ListMarks(es + [e]), rest)
    decreases |ts|, 0
  {
    hide Moves, ListMarks, ExprMarks, Expression;
    var w := ListMarks(es) + [Sign(COMMA)];
    Separator(ListMarks(es), ts);
    Skipped(w, ts[1..]);
    Onwards(ListMarks(es), ts, w, ts[1..], w, at);
    ExpressionKept(at);
    Then(ListMarks(es), ts, w, at, ExprMarks(e), rest);
    OneMoreListed(es, e);
  }

  lemma {:induction false} CallKept(name: string, ts: Tokens)
    requires Peek(ts) == LPAREN
    ensures Kept(Name(name), ts, Call(name, ts))
    decreases |ts|, 1
  {
    hide Moves, ExprMarks, ListMarks, Piped, CallArgs, Name;
    var args := CallArgs(ts[1..]);
    if args.Ok? && Eat(args.rest, RPAREN).Ok? {
      var call, close := FnCallExpr(name, args.value), args.rest[1..];
      CallArgsKept(ts[1..]);
      After(Name(name), [], ts[1..], ListMarks(args.value), args.rest);
      assert Name(name) + [] == Name(name);
      CallMarks(name, args.value);
      Enclosed(Name(name), ts, ExprMarks(call), args.rest);
      if Peek(close) == PIPE {
        PipedKept([Command(CALL, [call])], close);
        var r := Piped([Command(CALL, [call])], close);
        if r.Ok? { Onwards(Name(name), ts, ExprMarks(call), close, ExprMarks(r.value), r.rest); }
      }
    }
  }

  lemma CallMarks(name: string, args: seq<Expr>)
    ensures var call := FnCallExpr(name, args);
      ExprMarks(call) == Name(name) + ListMarks(args) && CommandsMarks([Command(CALL, [call])]) == ExprMarks(call)
  {
    var call := FnCallExpr(name, args);
    OneCommand(CALL, [call]);
    assert [call][..0] == [];
    assert RowMarks([call]) == ExprMarks(call);
  }

  lemma OneCommand(name: string, args: seq<Expr>)
    ensures CommandsMarks([Command(name, args)]) == Name(name) + RowMarks(args)
  {
    assert [Command(name, args)][..0] == [];
  }

  lemma {:induction false} CallArgsKept(ts: Tokens)
    ensures KeptAll([], ts, CallArgs(ts)) && (CallArgs(ts).Ok? ==> Peek(ts) != NEWLINE)
    decreases |ts|, 21
  {
    hide Moves, ExprMarks, Expression, MoreArgs;
    if Peek(ts) == RPAREN {
      Still([], ts);
    } else {
      var first := Expression(ts);
      if first.Ok? {
        ExpressionStarts(ts);
        ExpressionKept(ts);
        OneListed(first.value);
        MoreArgsKept([first.value], first.rest);
        var r := MoreArgs([first.value], first.rest);
        if r.Ok? { Onwards([], ts, ListMarks([first.value]), first.rest, ListMarks(r.value), r.rest); }
      }
    }
  }

  lemma {:induction false} ListKept(ts: Tokens)
    ensures Kept([Sign(LBRACKET)], ts, ListBody(ts))
    decreases |ts|, 22
  {
    hide Moves, ListMarks, ListItems;
    var w, here := [Sign(LBRACKET)], SkipNewlines(ts);
    var items := ListItems(here);
    if items.Ok? && Eat(SkipNewlines(items.rest), RBRACKET).Ok? {
      ListItemsKept(here);
      Skipped(w, ts);
      Then(w, ts, w, here, ListMarks(items.value), items.rest);
      ClosedAfter(w, ts, w + ListMarks(items.value), items.rest);
    }
  }

  /** Newlines and a closing bracket or brace. */
  lemma ClosedAfter(w: seq<Mark>, ts: Tokens, v: seq<Mark>, rest: Tokens)
    requires Moves(w, ts, v, rest) && Peek(SkipNewlines(rest)) in {RBRACKET, RBRACE}
    ensures var close := SkipNewlines(rest); Moves(w, ts, v + [Sign(close[0])], close[1..])
  {
    hide Moves;
    var close := SkipNewlines(rest);
    Skipped(v, rest);
    Onwards(w, ts, v, rest, v, close);
    Closed(v, close);
    Onwards(w, ts, v, close, v + [Sign(close[0])], close[1..]);
  }

  lemma {:induction false} ListItemsKept(ts: Tokens)
    ensures KeptAll([], ts, ListItems(ts))
    decreases |ts|, 21
  {
    hide Moves, ExprMarks, Expression, MoreItems;
    if Peek(ts) == RBRACKET {
      Still([], ts);
    } else {
      var first := Expression(ts);
      if first.Ok? {
        ExpressionKept(ts);
        OneListed(first.value);
        MoreItemsKept([first.value], first.rest);
        var r := MoreItems([first.value], first.rest);
        if r.Ok? { Onwards([], ts, ListMarks([first.value]), first.rest, ListMarks(r.value), r.rest); }
      }
    }
  }

  lemma {:induction false} MoreItemsKept(items: seq<Expr>, ts: Tokens)
    requires items != []
    ensures KeptAll(ListMarks(items), ts, MoreItems(items, ts))
    decreases |ts|, 1
  {
    hide Moves, ListMarks, ExprMarks, Expression;
    if Peek(ts) != COMMA {
      Still(ListMarks(items), ts);
    } else {
      var at := SkipNewlines(ts[1..]);
      if Peek(at) == RBRACKET {
        LastComma(ListMarks(items), ts);
      } else {
        var e := Expression(at);
        if e.Ok? {
          ExpressionStarts(at);
          MoreListed(items, e.value, ts, at, e.rest);
          MoreItemsKept(items + [e.value], e.rest);
          var r := MoreItems(items + [e.value], e.rest);
          if r.Ok? { Onwards(ListMarks(items), ts, ListMarks(items + [e.value]), e.rest, ListMarks(r.value), r.rest); }
        }
      }
    }
  }

  /** The comma after the last element, and newlines. */
  lemma LastComma(w: seq<Mark>, ts: Tokens)
    requires Peek(ts) == COMMA && Peek(SkipNewlines(ts[1..])) in {RBRACKET, RBRACE}
    ensures Moves(w, ts, w, SkipNewlines(ts[1..]))
  {
    hide Moves;
    Trailing(w, ts);
    Skipped(w, ts[1..]);
    Onwards(w, ts, w, ts[1..], w, SkipNewlines(ts[1..]));
  }

  ghost predicate KeptPairs(w: seq<Mark>, ts: Tokens, r: Parsed<seq<Pair>>) {
    r.Ok? ==> Moves(w, ts, PairsMarks(r.value), r.rest)
  }

  lemma {:induction false} MapKept(ts: Tokens)
    ensures Kept([Sign(LBRACE)], ts, MapBody(ts))
    decreases |ts|, 23
  {
    hide Moves, PairsMarks, MapPairs;
    var w, here := [Sign(LBRACE)], SkipNewlines(ts);
    var pairs := MapPairs(here);
    if pairs.Ok? && Eat(SkipNewlines(pairs.rest), RBRACE).Ok? {
      MapPairsKept(here);
      Skipped(w, ts);
      Then(w, ts, w, here, PairsMarks(pairs.value), pairs.rest);
      ClosedAfter(w, ts, w + PairsMarks(pairs.value), pairs.rest);
    }
  }

  lemma {:induction false} MapPairsKept(ts: Tokens)
    ensures KeptPairs([], ts, MapPairs(ts))
    decreases |ts|, 22
  {
    hide Moves, PairMarks, MapPair, MorePairs;
    if Peek(ts) == RBRACE {
      Still([], ts);
    } else {
      var first := MapPair(ts);
      if first.Ok? {
        PairKept([], ts);
        assert [first.value][..0] == [] && PairsMarks([first.value]) == [] + PairMarks(first.value);
        MorePairsKept([first.value], first.rest);
        var r := MorePairs([first.value], first.rest);
        if r.Ok? { Onwards([], ts, PairsMarks([first.value]), first.rest, PairsMarks(r.value), r.rest); }
      }
    }
  }

  lemma {:induction false} PairKept(w: seq<Mark>, ts: Tokens)
    ensures MapPair(ts).Ok? ==> Moves(w, ts, w + PairMarks(MapPair(ts).value), MapPair(ts).rest)
    ensures MapPair(ts).Ok? ==> Peek(ts).IDENT?
    decreases |ts|, 21
  {
    hide Moves, ExprMarks, Expression;
    var r := MapPair(ts);
    if r.Ok? {
      var k, colon, at := Name(ts[0].name), ts[1..], ts[2..];
      assert colon[1..] == at;
      NameRead(w, ts);
      ExpressionStarts(at);
      OneBefore(w + k, colon);
      Onwards(w, ts, w + k, colon, w + k + [Sign(COLON)], at);
      ExpressionKept(at);
      Then(w, ts, w + k + [Sign(COLON)], at, ExprMarks(r.value.val), r.rest);
      assert w + k + [Sign(COLON)] + ExprMarks(r.value.val) == w + PairMarks(r.value);
    }
  }

  lemma OneMorePair(ps: seq<Pair>, p: Pair)
    requires ps != []
    ensures PairsMarks(ps + [p]) == ListedBefore(ps) + PairMarks(p)
  {
    hide PairMarks;
    assert (ps + [p])[..|ps|] == ps;
  }

  function ListedBefore(ps: seq<Pair>): seq<Mark> {
    PairsMarks(ps) + [Sign(COMMA)]
  }

  lemma {:induction false} MorePairsKept(pairs: seq<Pair>, ts: Tokens)
    requires pairs != []
    ensures KeptPairs(PairsMarks(pairs), ts, MorePairs(pairs, ts))
    decreases |ts|, 0
  {
    hide Moves, PairsMarks, PairMarks, MapPair;
    if Peek(ts) != COMMA {
      Still(PairsMarks(pairs), ts);
    } else {
      var at := SkipNewlines(ts[1..]);
      if Peek(at) == RBRACE {
        LastComma(PairsMarks(pairs), ts);
      } else {
        var p := MapPair(at);
        if p.Ok? {
          var w := ListedBefore(pairs);
          PairKept(w, at);
          Separator(PairsMarks(pairs), ts);
          Skipped(w, ts[1..]);
          Onwards(PairsMarks(pairs), ts, w, ts[1..], w, at);
          OneMorePair(pairs, p.value);
          Onwards(PairsMarks(pairs), ts, w, at, PairsMarks(pairs + [p.value]), p.rest);
          MorePairsKept(pairs + [p.value], p.rest);
          var r := MorePairs(pairs + [p.value], p.rest);
          if r.Ok? {
            Onwards(PairsMarks(pairs), ts, PairsMarks(pairs + [p.value]), p.rest, PairsMarks(r.value), r.rest);
          }
        }
      }
    }
  }

  // ----- commands and pipelines -----

  ghost predicate KeptRow(w: seq<Mark>, ts: Tokens, r: Parsed<seq<Expr>>) {
    r.Ok? ==> Moves(w, ts, RowMarks(r.value), r.rest)
  }

  lemma OneMoreInRow(es: seq<Expr>, e: Expr)
    ensures RowMarks(es + [e]) == RowMarks(es) + ExprMarks(e)
  {
    hide ExprMarks;
    assert (es + [e])[..|es|] == es;
  }

  /** One more argument, and those after it. */
  lemma RowKept(args: seq<Expr>, e: Expr, ts: Tokens, rest: Tokens)
    requires Moves([], ts, ExprMarks(e), rest) && |rest| < |ts|
    ensures KeptRow(RowMarks(args), ts, Args(args + [e], rest))
    decreases |rest|, 4
  {
    hide Moves, RowMarks, ExprMarks, Args;
    ArgsKept(args + [e], rest);
    After(RowMarks(args), [], ts, ExprMarks(e), rest);
    assert RowMarks(args) + [] == RowMarks(args);
    OneMoreInRow(args, e);
    var r := Args(args + [e], rest);
    if r.Ok? { Onwards(RowMarks(args), ts, RowMarks(args + [e]), rest, RowMarks(r.value), r.rest); }
  }

  lemma UnsignedIsEven(n: Num)
    ensures Unsigned(Negate(n)) == Unsigned(n)
  {
  }

  /** A number or a flag after a dash. */
  lemma Dashed(ts: Tokens, e: Expr)
    requires Peek(ts) == MINUS && |ts| > 1
    requires match ts[1]
      case NUMBER(s) => ReadNumber(s).Some? && e == NumberLit(Negate(ReadNumber(s).value))
      case IDENT(flag) => e == StringLit("-" + flag)
      case _ => false
    ensures Moves([], ts, ExprMarks(e), ts[2..])
  {
    hide Moves, ReadNumber;
    var rest := ts[1..];
    assert rest[1..] == ts[2..];
    One([], ts);
    One([], rest);
    if ts[1].NUMBER? {
      UnsignedIsEven(ReadNumber(ts[1].text).value);
    } else {
      assert ("-" + ts[1].name)[1..] == ts[1].name;
    }
    assert [] + TokenMarks(ts[1]) == ExprMarks(e);
    assert [] + TokenMarks(MINUS) == [];
    Onwards([], ts, [], rest, ExprMarks(e), ts[2..]);
  }

  lemma {:induction false} ArgsKept(args: seq<Expr>, ts: Tokens)
    ensures KeptRow(RowMarks(args), ts, Args(args, ts))
    decreases |ts|, 3
  {
    hide Moves, RowMarks, ExprMarks, Variable, Call, ListBody, ReadNumber, TokenMarks;
    Still(RowMarks(args), ts);
    if Args(args, ts).Ok? && ts != [] {
      var t, rest := ts[0], ts[1..];
      if t.STRING? || t.NUMBER? || t in {TRUE, FALSE} {
        var e := LiteralOf(t);
        LiteralMarks(ts, e);
        assert [] + ExprMarks(e) == ExprMarks(e);
        assert Moves([], ts, [] + ExprMarks(e), rest);
        RowKept(args, e, ts, rest);
      } else if t == DOLLAR {
        VariableKept(rest);
        var v := Variable(rest);
        Dollar([], ts, ExprMarks(v.value), v.rest);
        RowKept(args, v.value, ts, v.rest);
      } else if t.IDENT? && Peek(rest) == LPAREN {
        NameRead([], ts);
        CallKept(t.name, rest);
        var call := Call(t.name, rest);
        Onwards([], ts, Name(t.name), rest, ExprMarks(call.value), call.rest);
        RowKept(args, call.value, ts, call.rest);
      } else if t == LBRACKET {
        ListKept(rest);
        var list := ListBody(rest);
        Opened(ts, list.value, list.rest);
        RowKept(args, list.value, ts, list.rest);
      } else if t == MINUS && (Peek(rest).NUMBER? || Peek(rest).IDENT?) {
        var e := DashedOf(Peek(rest));
        Dashed(ts, e);
        assert rest[1..] == ts[2..];
        RowKept(args, e, ts, rest[1..]);
      }
    }
  }

  function LiteralOf(t: Token): Expr {
    match t
    case STRING(s) => StringLit(s)
    case NUMBER(s) => (match ReadNumber(s) case Some(n) => NumberLit(n) case None => NullLit)
    case TRUE => BoolLit(true)
    case FALSE => BoolLit(false)
    case _ => NullLit
  }

  function DashedOf(t: Token): Expr {
    match t
    case NUMBER(s) => (match ReadNumber(s) case Some(n) => NumberLit(Negate(n)) case None => NullLit)
    case IDENT(flag) => StringLit("-" + flag)
    case _ => NullLit
  }

  lemma {:induction false} CommandKept(name: string, ts: Tokens)
    ensures Kept(Name(name), ts, CommandFrom(name, ts))
    decreases |ts|, 4
  {
    hide Moves, ExprMarks, RowMarks, CommandsMarks, Args, Piped, Name;
    var args := Args([], ts);
    if args.Ok? {
      ArgsKept([], ts);
      EmptyRow();
      After(Name(name), [], ts, RowMarks(args.value), args.rest);
      assert Name(name) + [] == Name(name);
      OneCommand(name, args.value);
      PipedKept([Command(name, args.value)], args.rest);
      var r := Piped([Command(name, args.value)], args.rest);
      if r.Ok? {
        Onwards(Name(name), ts, CommandsMarks([Command(name, args.value)]), args.rest, ExprMarks(r.value), r.rest);
      }
    }
  }

  lemma EmptyRow()
    ensures RowMarks([]) == []
  {
  }

  lemma {:induction false} CommandOrVarKept(name: string, ts: Tokens)
    ensures Kept(Name(name), ts, CommandOrVar(name, ts))
    decreases |ts|, 5
  {
    hide Moves, CommandsMarks, CommandFrom, Piped, LooksLikeArg, Name;
    if LooksLikeArg(ts) {
      CommandKept(name, ts);
    } else if Peek(ts) == PIPE {
      EmptyRow();
      OneCommand(name, []);
      assert Name(name) + [] == Name(name);
      PipedKept([Command(name, [])], ts);
    } else {
      Still(Name(name), ts);
    }
  }

  lemma OneMoreCommand(cs: seq<Command>, name: string, args: seq<Expr>)
    requires cs != []
    ensures CommandsMarks(cs + [Command(name, args)])
         == CommandsMarks(cs) + [Sign(PIPE)] + Name(name) + RowMarks(args)
  {
    hide RowMarks, Name;
    var c := Command(name, args);
    assert (cs + [c])[..|cs|] == cs;
    assert CommandsMarks(cs) + [Sign(PIPE)] + (Name(name) + RowMarks(args))
        == CommandsMarks(cs) + [Sign(PIPE)] + Name(name) + RowMarks(args);
  }

  lemma {:induction false} PipedKept(commands: seq<Command>, ts: Tokens)
    requires commands != []
    ensures Kept(CommandsMarks(commands), ts, Piped(commands, ts))
    decreases |ts|, 0
  {
    hide Moves, CommandsMarks, RowMarks, Args, Name;
    var u := CommandsMarks(commands);
    if Peek(ts) != PIPE {
      Still(u, ts);
    } else if Piped(commands, ts).Ok? {
      var at := SkipNewlines(ts[1..]);
      var name := at[0].name;
      var args := Args([], at[1..]);
      var w := u + [Sign(PIPE)];
      PipeKept(u, ts);
      Skipped(w, ts[1..]);
      Onwards(u, ts, w, ts[1..], w, at);
      NameRead(w, at);
      Onwards(u, ts, w, at, w + Name(name), at[1..]);
      ArgsKept([], at[1..]);
      EmptyRow();
      Then(u, ts, w + Name(name), at[1..], RowMarks(args.value), args.rest);
      OneMoreCommand(commands, name, args.value);
      var more := commands + [Command(name, args.value)];
      PipedKept(more, args.rest);
      var r := Piped(more, args.rest);
      Onwards(u, ts, CommandsMarks(more), args.rest, ExprMarks(r.value), r.rest);
    }
  }

  lemma PipeKept(w: seq<Mark>, ts: Tokens)
    requires Peek(ts) == PIPE && (CommandName(Peek(SkipNewlines(ts[1..]))).Some? || Peek(ts[1..]) == NEWLINE)
    ensures Moves(w, ts, w + [Sign(PIPE)], ts[1..])
  {
    hide Moves;
    if Peek(ts[1..]) != NEWLINE { SkipsNothing(ts[1..]); }
    One(w, ts);
  }

  // ----- statements -----

  ghost predicate KeptStmt(ts: Tokens, r: Parsed<Stmt>) {
    r.Ok? ==> Moves([], ts, StmtMarks(r.value), r.rest)
  }

  lemma OneMoreStmt(b: seq<Stmt>, s: Stmt)
    ensures BlockMarks(b + [s]) == BlockMarks(b) + StmtMarks(s)
  {
    hide StmtMarks;
    assert (b + [s])[..|b|] == b;
  }

  lemma {:induction false} BlockKept(stmts: seq<Stmt>, ts: Tokens, stop: Token)
    ensures var r := Block(stmts, ts, stop); r.Ok? ==> Moves(BlockMarks(stmts), ts, BlockMarks(r.value), r.rest)
    ensures var r := Block(stmts, ts, stop); r.Ok? ==> Peek(r.rest) == stop
    decreases |ts|, 41
  {
    hide Moves, BlockMarks, StmtMarks, Statement;
    var u, here := BlockMarks(stmts), SkipNewlines(ts);
    Skipped(u, ts);
    if Peek(here) != stop {
      var s := Statement(here);
      if s.Ok? {
        StatementKept(here);
        Then(u, ts, u, here, StmtMarks(s.value), s.rest);
        OneMoreStmt(stmts, s.value);
        var more := stmts + [s.value];
        BlockKept(more, s.rest, stop);
        var r := Block(more, s.rest, stop);
        if r.Ok? { Onwards(u, ts, BlockMarks(more), s.rest, BlockMarks(r.value), r.rest); }
      }
    }
  }

  lemma Brace(w: seq<Mark>, ts: Tokens)
    requires ts != [] && ts[0] == LBRACE
    ensures Moves(w, ts, w + [Sign(LBRACE)], ts[1..])
  {
    One(w, ts);
  }

  lemma {:induction false} BracedKept(w: seq<Mark>, ts: Tokens)
    ensures var r := Braced(ts); r.Ok? ==> Moves(w, ts, w + BracedMarks(r.value), r.rest)
    decreases |ts|, 31
  {
    hide Moves, BlockMarks, Block, TokenMarks;
    var r := Braced(ts);
    if r.Ok? {
      var here := SkipNewlines(ts);
      var body := Block([], here[1..], RBRACE);
      Skipped(w, ts);
      Brace(w, here);
      var u := w + [Sign(LBRACE)];
      Onwards(w, ts, w, here, u, here[1..]);
      BlockKept([], here[1..], RBRACE);
      NoStmts();
      Then(w, ts, u, here[1..], BlockMarks(r.value), body.rest);
      Closed(u + BlockMarks(r.value), body.rest);
      Onwards(w, ts, u + BlockMarks(r.value), body.rest, u + BlockMarks(r.value) + [Sign(RBRACE)], r.rest);
      assert u + BlockMarks(r.value) + [Sign(RBRACE)] == w + BracedMarks(r.value);
    }
  }

  lemma NoStmts()
    ensures BlockMarks([]) == []
  {
  }

  lemma {:induction false} StatementKept(ts: Tokens)
    ensures KeptStmt(ts, Statement(ts))
    decreases |ts|, 40
  {
    hide Moves, StmtMarks, Let, If, For, Fn, Return, Try, Import, Simple;
    var r := Statement(ts);
    if r.Ok? {
      if Peek(ts) == LET { LetKept(ts); }
      else if Peek(ts) == IF { IfKept(ts); }
      else if Peek(ts) == FOR { ForKept(ts); }
      else if Peek(ts) == FN { FnKept(ts); }
      else if Peek(ts) == RETURN { ReturnKept(ts); }
      else if Peek(ts) == TRY { TryKept(ts); }
      else if Peek(ts) == IMPORT { ImportKept(ts); }
      else { SimpleKept(ts); }
    }
  }

  /** An expression, and the newlines after it. */
  lemma {:induction false} Ended(u: seq<Mark>, a: Tokens, w: seq<Mark>, ts: Tokens)
    requires Moves(u, a, w, ts) && Expression(ts).Ok?
    ensures var e := Expression(ts); Moves(u, a, w + ExprMarks(e.value), SkipNewlines(e.rest))
    decreases |ts|, 21
  {
    hide Moves, ExprMarks, Expression;
    var e := Expression(ts);
    ExpressionKept(ts);
    Then(u, a, w, ts, ExprMarks(e.value), e.rest);
    Skipped(w + ExprMarks(e.value), e.rest);
    Onwards(u, a, w + ExprMarks(e.value), e.rest, w + ExprMarks(e.value), SkipNewlines(e.rest));
  }

  lemma {:induction false} SimpleKept(ts: Tokens)
    ensures KeptStmt(ts, Simple(ts))
    decreases |ts|, 22
  {
    hide Moves, ExprMarks, Expression;
    var e := Expression(ts);
    if Simple(ts).Ok? {
      Still([], ts);
      assert [] + ExprMarks(e.value) == ExprMarks(e.value);
      if Simple(ts).value.AssignStmt? {
        var at, w := e.rest[1..], ExprMarks(e.value) + [Sign(ASSIGN)];
        ExpressionKept(ts);
        ExpressionStarts(at);
        OneBefore(ExprMarks(e.value), e.rest);
        Onwards([], ts, ExprMarks(e.value), e.rest, w, at);
        Ended([], ts, w, at);
      } else {
        Ended([], ts, [], ts);
      }
    }
  }

  /** A keyword and the name after it. */
  lemma KeywordName(ts: Tokens)
    requires |ts| > 1 && ts[0] in {LET, FOR, FN, CATCH} && ts[1].IDENT?
    ensures Moves([], ts, [Sign(ts[0])] + Name(ts[1].name), ts[2..])
  {
    hide Moves, Name;
    assert ts[1..][1..] == ts[2..];
    One([], ts);
    assert [] + TokenMarks(ts[0]) == [Sign(ts[0])];
    NameRead([Sign(ts[0])], ts[1..]);
    Onwards([], ts, [Sign(ts[0])], ts[1..], [Sign(ts[0])] + Name(ts[1].name), ts[2..]);
  }

  lemma {:induction false} LetKept(ts: Tokens)
    requires Peek(ts) == LET
    ensures KeptStmt(ts, Let(ts[1..]))
    decreases |ts|, 23
  {
    hide Moves, ExprMarks, Expression, Name;
    var r := Let(ts[1..]);
    if r.Ok? {
      var at, u := ts[3..], [Sign(LET)] + Name(ts[1].name);
      assert ts[1..][1..] == ts[2..] && ts[2..][1..] == at;
      KeywordName(ts);
      ExpressionStarts(at);
      OneBefore(u, ts[2..]);
      Onwards([], ts, u, ts[2..], u + [Sign(ASSIGN)], at);
      Ended([], ts, u + [Sign(ASSIGN)], at);
    }
  }

  lemma {:induction false} GuardedKept(w: seq<Mark>, ts: Tokens)
    ensures var r := Guarded(ts); r.Ok? ==> Moves(w, ts, w + ElifMarks(r.value), r.rest) && Starts(Peek(ts))
    decreases |ts|, 32
  {
    hide Moves, ExprMarks, BracedMarks, Expression, Braced;
    var r := Guarded(ts);
    if r.Ok? {
      var cond := Expression(ts);
      ExpressionStarts(ts);
      ExpressionKept(ts);
      Still(w, ts);
      Then(w, ts, w, ts, ExprMarks(cond.value), cond.rest);
      BracedKept(w + ExprMarks(cond.value), cond.rest);
      Onwards(w, ts, w + ExprMarks(cond.value), cond.rest,
              w + ExprMarks(cond.value) + BracedMarks(r.value.block), r.rest);
      assert w + ExprMarks(cond.value) + BracedMarks(r.value.block) == w + ElifMarks(r.value);
    }
  }

  lemma OneMoreElif(es: seq<Elif>, e: Elif)
    ensures ElifsMarks(es + [e]) == ElifsMarks(es) + [Sign(ELIF)] + ElifMarks(e)
  {
    hide ElifMarks;
    assert (es + [e])[..|es|] == es;
  }

  lemma {:induction false} ElifsKept(elifs: seq<Elif>, ts: Tokens)
    ensures var r := Elifs(elifs, ts); r.Ok? ==> Moves(ElifsMarks(elifs), ts, ElifsMarks(r.value), r.rest)
    decreases |ts|, 0
  {
    hide Moves, ElifsMarks, ElifMarks, Guarded;
    var u := ElifsMarks(elifs);
    if Peek(ts) != ELIF {
      Still(u, ts);
    } else if Elifs(elifs, ts).Ok? {
      var next := Guarded(ts[1..]);
      var w, more, at := u + [Sign(ELIF)], elifs + [next.value], SkipNewlines(next.rest);
      GuardedKept(w, ts[1..]);
      OneBefore(u, ts);
      Onwards(u, ts, w, ts[1..], w + ElifMarks(next.value), next.rest);
      Skipped(w + ElifMarks(next.value), next.rest);
      Onwards(u, ts, w + ElifMarks(next.value), next.rest, w + ElifMarks(next.value), at);
      OneMoreElif(elifs, next.value);
      ElifsKept(more, at);
      var r := Elifs(more, at);
      Onwards(u, ts, ElifsMarks(more), at, ElifsMarks(r.value), r.rest);
    }
  }

  lemma {:induction false} IfKept(ts: Tokens)
    requires Peek(ts) == IF
    ensures KeptStmt(ts, If(ts[1..]))
    decreases |ts|, 33
  {
    hide Moves, ElifMarks, ElifsMarks, BracedMarks, StmtMarks, TokenMarks, Guarded, Elifs, Braced, SkipNewlines;
    var r := If(ts[1..]);
    if r.Ok? {
      var first := Guarded(ts[1..]);
      var at, w := SkipNewlines(first.rest), [Sign(IF)] + ElifMarks(first.value);
      var more := Elifs([], at);
      var u := w + ElifsMarks(more.value);
      GuardedKept([Sign(IF)], ts[1..]);
      OneBefore([], ts);
      IfMark();
      Onwards([], ts, [Sign(IF)], ts[1..], w, first.rest);
      Skipped(w, first.rest);
      Onwards([], ts, w, first.rest, w, at);
      ElifsKept([], at);
      NoElifs();
      Then([], ts, w, at, ElifsMarks(more.value), more.rest);
      IfMarks(r.value);
      if Peek(more.rest) == ELSE {
        var els := Braced(more.rest[1..]);
        ElseRead(u, more.rest);
        Onwards([], ts, u, more.rest, u + [Sign(ELSE)], more.rest[1..]);
        BracedKept(u + [Sign(ELSE)], more.rest[1..]);
        Onwards([], ts, u + [Sign(ELSE)], more.rest[1..], u + [Sign(ELSE)] + BracedMarks(els.value), els.rest);
      }
    }
  }

  lemma IfMark()
    ensures [] + TokenMarks(IF) == [Sign(IF)]
  {
  }

  lemma ElseRead(w: seq<Mark>, ts: Tokens)
    requires Peek(ts) == ELSE
    ensures Moves(w, ts, w + [Sign(ELSE)], ts[1..])
  {
    One(w, ts);
  }

  lemma NoElifs()
    ensures ElifsMarks([]) == []
  {
  }

  lemma IfMarks(s: Stmt)
    requires s.IfStmt?
    ensures var w := [Sign(IF)] + ElifMarks(Elif(s.cond, s.body)) + ElifsMarks(s.elifs);
      StmtMarks(s) == match s.els case NoElse => w case Else(b) => w + [Sign(ELSE)] + BracedMarks(b)
  {
    hide ExprMarks, BracedMarks, ElifsMarks;
    var c, b, m := ExprMarks(s.cond), BracedMarks(s.body), ElifsMarks(s.elifs);
    assert [Sign(IF)] + (c + b) + m == [Sign(IF)] + c + b + m;
    match s.els
    case NoElse => assert [Sign(IF)] + c + b + m + [] == [Sign(IF)] + c + b + m;
    case Else(e) =>
      assert [Sign(IF)] + c + b + m + ([Sign(ELSE)] + BracedMarks(e))
          == [Sign(IF)] + c + b + m + [Sign(ELSE)] + BracedMarks(e);
  }

  lemma {:induction false} ForKept(ts: Tokens)
    requires Peek(ts) == FOR
    ensures KeptStmt(ts, For(ts[1..]))
    decreases |ts|, 33
  {
    hide Moves, ExprMarks, BracedMarks, Guarded, Name;
    var r := For(ts[1..]);
    if r.Ok? {
      var at, u := ts[3..], [Sign(FOR)] + Name(ts[1].name);
      assert ts[1..][1..] == ts[2..] && ts[2..][1..] == at;
      var loop := Guarded(at);
      KeywordName(ts);
      GuardedKept(u + [Sign(IN)], at);
      OneBefore(u, ts[2..]);
      Onwards([], ts, u, ts[2..], u + [Sign(IN)], at);
      Onwards([], ts, u + [Sign(IN)], at, u + [Sign(IN)] + ElifMarks(loop.value), r.rest);
      assert u + [Sign(IN)] + ElifMarks(loop.value) == StmtMarks(r.value);
    }
  }

  lemma OneMoreName(names: seq<string>, name: string)
    ensures NamesMarks(names + [name]) == (if names == [] then [] else NamesMarks(names) + [Sign(COMMA)]) + Name(name)
  {
    hide Name;
    assert (names + [name])[..|names|] == names;
  }

  lemma {:induction false} MoreParamsKept(params: seq<string>, ts: Tokens)
    requires params != []
    ensures var r := MoreParams(params, ts); r.Ok? ==> Moves(NamesMarks(params), ts, NamesMarks(r.value), r.rest)
    decreases |ts|
  {
    hide Moves, NamesMarks, Name;
    var u := NamesMarks(params);
    if Peek(ts) != COMMA {
      Still(u, ts);
    } else if MoreParams(params, ts).Ok? {
      var at, more := ts[2..], params + [ts[1].name];
      assert ts[1..][1..] == at;
      SkipsNothing(ts[1..]);
      Separator(u, ts);
      NameRead(u + [Sign(COMMA)], ts[1..]);
      Onwards(u, ts, u + [Sign(COMMA)], ts[1..], u + [Sign(COMMA)] + Name(ts[1].name), at);
      OneMoreName(params, ts[1].name);
      MoreParamsKept(more, at);
      var r := MoreParams(more, at);
      Onwards(u, ts, NamesMarks(more), at, NamesMarks(r.value), r.rest);
    }
  }

  lemma ParamsKept(ts: Tokens)
    ensures var r := Params(ts); r.Ok? ==> Moves([], ts, NamesMarks(r.value), r.rest) && Peek(ts) != NEWLINE
  {
    hide Moves, NamesMarks, Name, MoreParams;
    var r := Params(ts);
    NoNames();
    if Peek(ts) == RPAREN {
      Still([], ts);
    } else if r.Ok? {
      NameRead([], ts);
      OneMoreName([], ts[0].name);
      assert [] + [ts[0].name] == [ts[0].name] && [] + Name(ts[0].name) == Name(ts[0].name);
      MoreParamsKept([ts[0].name], ts[1..]);
      Onwards([], ts, Name(ts[0].name), ts[1..], NamesMarks(r.value), r.rest);
    }
  }

  lemma NoNames()
    ensures NamesMarks([]) == []
  {
  }

  lemma {:induction false} FnKept(ts: Tokens)
    requires Peek(ts) == FN
    ensures KeptStmt(ts, Fn(ts[1..]))
    decreases |ts|, 33
  {
    hide Moves, BracedMarks, NamesMarks, Params, Braced, Name;
    var r := Fn(ts[1..]);
    if r.Ok? {
      var u := [Sign(FN)] + Name(ts[1].name);
      assert ts[1..][1..] == ts[2..] && ts[2..][1..] == ts[3..];
      var params := Params(ts[3..]);
      var w := u + NamesMarks(params.value);
      KeywordName(ts);
      ParamsKept(ts[3..]);
      After(u, [], ts[3..], NamesMarks(params.value), params.rest);
      assert u + [] == u;
      Enclosed(u, ts[2..], w, params.rest);
      Onwards([], ts, u, ts[2..], w, params.rest[1..]);
      BracedKept(w, params.rest[1..]);
      Onwards([], ts, w, params.rest[1..], w + BracedMarks(r.value.body), r.rest);
    }
  }

  lemma {:induction false} ReturnKept(ts: Tokens)
    requires Peek(ts) == RETURN
    ensures KeptStmt(ts, Return(ts[1..]))
    decreases |ts|, 33
  {
    hide Moves, ExprMarks, Expression;
    var r := Return(ts[1..]);
    if r.Ok? {
      var w := [Sign(RETURN)];
      Keyword(ts);
      assert w + [] == w;
      if r.value.result.None? {
        Skipped(w, ts[1..]);
        Onwards([], ts, w, ts[1..], w, r.rest);
      } else {
        Ended([], ts, w, ts[1..]);
      }
    }
  }

  lemma Keyword(ts: Tokens)
    requires Peek(ts) in {TRY, RETURN}
    ensures Moves([], ts, [Sign(ts[0])], ts[1..])
  {
    One([], ts);
  }

  lemma CatchParts(body: seq<Stmt>, ts: Tokens)
    requires Catch(body, ts).Ok?
    ensures |ts| > 1 && ts[0] == CATCH && ts[1].IDENT? && Braced(ts[2..]).Ok?
    ensures var handler := Braced(ts[2..]);
      Catch(body, ts) == Ok(TryCatch(body, ts[1].name, handler.value), handler.rest)
  {
    hide Braced;
    assert ts[1..][1..] == ts[2..];
  }

  lemma {:induction false} TryKept(ts: Tokens)
    requires Peek(ts) == TRY
    ensures KeptStmt(ts, Try(ts[1..]))
    decreases |ts|, 34
  {
    hide Moves, BracedMarks, StmtMarks, Braced, Name, Catch, TokenMarks, SkipNewlines;
    var r := Try(ts[1..]);
    if r.Ok? {
      var body := Braced(ts[1..]);
      var at, w := SkipNewlines(body.rest), [Sign(TRY)] + BracedMarks(body.value);
      Keyword(ts);
      BracedKept([Sign(TRY)], ts[1..]);
      Onwards([], ts, [Sign(TRY)], ts[1..], w, body.rest);
      Skipped(w, body.rest);
      Onwards([], ts, w, body.rest, w, at);
      CatchParts(body.value, at);
      var name, handler := at[1].name, Braced(at[2..]);
      KeywordName(at);
      var u := [Sign(CATCH)] + Name(name);
      Then([], ts, w, at, u, at[2..]);
      BracedKept(w + u, at[2..]);
      Onwards([], ts, w + u, at[2..], w + u + BracedMarks(handler.value), r.rest);
      TryMarks(body.value, name, handler.value);
    }
  }

  lemma TryMarks(body: seq<Stmt>, x: string, handler: seq<Stmt>)
    ensures [Sign(TRY)] + BracedMarks(body) + ([Sign(CATCH)] + Name(x)) + BracedMarks(handler)
         == StmtMarks(TryCatch(body, x, handler))
  {
    hide BracedMarks, Name;
  }

  lemma ImportKept(ts: Tokens)
    requires Peek(ts) == IMPORT
    ensures KeptStmt(ts, Import(ts[1..]))
  {
    hide Moves;
    var r := Import(ts[1..]);
    if r.Ok? {
      var w := [Sign(IMPORT)] + TextMarks(ts[1].text);
      assert ts[1..][1..] == ts[2..];
      One([], ts);
      assert [] + TokenMarks(IMPORT) == [Sign(IMPORT)];
      One([Sign(IMPORT)], ts[1..]);
      Onwards([], ts, [Sign(IMPORT)], ts[1..], w, ts[2..]);
      Skipped(w, ts[2..]);
      Onwards([], ts, w, ts[2..], w, r.rest);
    }
  }

  // ----- whole programs -----

  /** The end comes last and nowhere else. */
  predicate Terminated(ts: Tokens) {
    ts != [] && forall i | 0 <= i < |ts| :: ts[i] == EOF <==> i == |ts| - 1
  }

  /** Lexed tokens end once. */
  lemma {:induction false} LexedTokensEnd(source: string)
    ensures LexAll(source).Some? ==> Terminated(LexAll(source).value)
    decreases |source|
  {
    hide First, LineLength, IsSpace, Terminated;
    if source == [] {
      OnlyTheEnd();
    } else if source[0] == '\n' {
      LexedTokensEnd(source[1..]);
      EndsLater(NEWLINE, LexAll(source[1..]));
    } else if IsSpace(source[0]) {
      LexedTokensEnd(source[1..]);
    } else if source[0] == '#' {
      LexedTokensEnd(source[1 + LineLength(source[1..])..]);
    } else {
      var first := First(source);
      if first.Lexed? {
        FirstIsNoEnd(source);
        LexedTokensEnd(first.rest);
        EndsLater(first.value, LexAll(first.rest));
      }
    }
  }

  lemma OnlyTheEnd()
    ensures Terminated([EOF])
  {
  }

  lemma EndsLater(t: Token, ts: Option<Tokens>)
    requires t != EOF && (ts.Some? ==> Terminated(ts.value))
    ensures Cons(t, ts).Some? ==> Terminated(Cons(t, ts).value)
  {
    if ts.Some? {
      var all := [t] + ts.value;
      forall i | 0 <= i < |all| ensures all[i] == EOF <==> i == |all| - 1 {
        if i > 0 { assert all[i] == ts.value[i - 1]; }
      }
    }
  }

  lemma FirstIsNoEnd(s: string)
    requires s != [] && First(s).Lexed?
    ensures First(s).value != EOF
  {
    hide StringBody, NameLength, NumberLength;
  }

  lemma EndComesLast(ts: Tokens, rest: Tokens)
    requires Terminated(ts) && EndsIn(ts, rest) && rest != [] && rest[0] == EOF
    ensures rest == [EOF]
  {
    assert ts[|ts| - |rest|] == ts[|ts| - |rest|..][0];
  }

  /** The tokens of a program leave, in order, exactly the marks of the tree; their parentheses are
      balanced; and no newline or dollar sign is out of place. */
  lemma NothingIsLost(ts: Tokens)
    requires Terminated(ts) && Program(ts).Ok?
    ensures Marks(ts) == BlockMarks(Program(ts).value) && Open(ts) == 0 && Breaks(ts) == 0
  {
    hide *;
    ProgramParts(ts);
    var body := Block([], ts, EOF);
    BlockKept([], ts, EOF);
    NoStmts();
    MovesParts(ts, BlockMarks(body.value), body.rest);
    EndComesLast(ts, body.rest);
    NothingAtTheEnd(BlockMarks(body.value));
  }

  lemma ProgramParts(ts: Tokens)
    requires Program(ts).Ok?
    ensures var body := Block([], ts, EOF);
      body.Ok? && body.value == Program(ts).value && body.rest != [] && body.rest[0] == EOF
  {
    hide Block;
  }

  lemma MovesParts(ts: Tokens, v: seq<Mark>, rest: Tokens)
    requires Moves([], ts, v, rest)
    ensures Marks(ts) == v + Marks(rest) && Open(ts) == Open(rest) && Breaks(ts) == Breaks(rest) && EndsIn(ts, rest)
  {
    assert [] + Marks(ts) == Marks(ts);
  }

  lemma NothingAtTheEnd(v: seq<Mark>)
    ensures v + Marks([EOF]) == v && Open([EOF]) == 0 && Breaks([EOF]) == 0
  {
  }

  /** So it is for every text that parses. */
  lemma NothingOfATextIsLost(source: string, program: seq<Stmt>)
    requires ParseSource(source) == Some(program)
    ensures LexAll(source).Some?
    ensures var ts := LexAll(source).value; Marks(ts) == BlockMarks(program) && Open(ts) == 0 && Breaks(ts) == 0
  {
    LexedTokensEnd(source);
    NothingIsLost(LexAll(source).value);
    hide LexAll, Marks, BlockMarks, Open, Breaks, Terminated;
  }
}
