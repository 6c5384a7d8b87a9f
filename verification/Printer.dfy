/** Writing syntax trees back as tokens, with parentheses only where the grammar needs them.

    Every function here puts the tokens of a tree in front of a list of tokens that are to follow. */
module Printer {
  import opened Wrappers
  import opened Syntax
  import opened Grammar
  import Lexer

  type Tokens = seq<Token>

  /** The choices a text leaves its author, each by what is to follow: whether a variable goes without
      its dollar sign, what is put in parentheses that need not be, how many newlines stand where any
      number may, where a list ends with a comma, and which arguments are written with a dash. */
  datatype Style = Style(
    bare: Tokens -> bool,
    wrap: (Expr, Tokens) -> bool,
    lines: Tokens -> nat,
    comma: Tokens -> bool,
    dash: (Expr, Tokens) -> bool)

  /** Every dollar sign, no needless parentheses, commas or dashes, and newlines only between statements. */
  const TERSE := Style(_ => false, (_, _) => false, _ => 0, _ => false, (_, _) => false)

  // ----- levels -----

  const INDEXED := 6
  const PRIMARY := 7

  function OpLevel(op: BinaryOp): nat {
    match op
    case OrOp => 0
    case AndOp => 1
    case EqOp => 2 case NeOp => 2 case LtOp => 2 case GtOp => 2 case LeOp => 2 case GeOp => 2
    case AddOp => 3 case SubOp => 3
    case MulOp => 4 case DivOp => 4
  }

  function OpToken(op: BinaryOp): Token {
    match op
    case OrOp => OR
    case AndOp => AND
    case EqOp => EQ case NeOp => NE case LtOp => LT case GtOp => GT case LeOp => LE case GeOp => GE
    case AddOp => PLUS case SubOp => MINUS
    case MulOp => STAR case DivOp => SLASH
  }

  predicate Dotted(name: string) {
    '.' in name
  }

  /** One command with a bare name and no arguments.  It is what a name is read as before a minus that
      begins no argument, and nowhere else: in `x - (1)`, but not in `(x) - 1`. */
  predicate IsLone(commands: seq<Command>) {
    |commands| == 1 && !Dotted(commands[0].cmd) && commands[0].cmdArgs == []
  }

  /** The tightest place an expression fits without parentheses; a pipeline of more than a bare name
      fits nowhere. */
  function Level(e: Expr): int {
    match e
    case BinOp(_, op, _) => OpLevel(op)
    case UnaryOp(_, _) => UNARY
    case IndexExpr(_, _) => INDEXED
    case VarRef(_) => INDEXED
    case PipelineExpr(commands) => if IsLone(commands) then PRIMARY else -1
    case _ => PRIMARY
  }

  // ----- what can be written down -----

  ghost predicate Writable(n: Num) {
    exists text :: IsNumeral(text) && ReadNumber(text) == Some(n)
  }

  ghost function Numeral(n: Num): (text: string)
    requires Writable(n)
    ensures IsNumeral(text) && ReadNumber(text) == Some(n)
  {
    var text :| IsNumeral(text) && ReadNumber(text) == Some(n); text
  }

  /** A variable, or a variable with indexes. */
  predicate IsPlace(e: Expr) {
    e.VarRef? || (e.IndexExpr? && IsPlace(e.obj))
  }

  /** The kinds of expression a command takes as arguments. */
  predicate IsArg(e: Expr) {
    e.StringLit? || e.NumberLit? || e.BoolLit? || e.FnCallExpr? || e.ListLit? || IsPlace(e)
  }

  /** A pipeline with a function call at its head. */
  predicate IsCallPipeline(e: Expr) {
    e.PipelineExpr? && IsCallHead(e.commands)
  }

  /** Arguments that can stand in a row: a list right after a variable would be read as an index,
      and a call right before a pipe takes the pipe for its own, so a pipeline that a call heads can
      only be the last argument of the last command. */
  predicate InARow(args: seq<Expr>, last: bool) {
    && (forall i | 0 <= i < |args| :: IsArg(args[i]) || (last && i == |args| - 1 && IsCallPipeline(args[i])))
    && (forall i | 0 <= i < |args| - 1 :: IsPlace(args[i]) ==> !args[i + 1].ListLit?)
    && (!last && args != [] ==> !args[|args| - 1].FnCallExpr?)
  }

  /** The head is a function call under the reserved command name. */
  predicate IsCallHead(commands: seq<Command>) {
    && |commands| >= 2 && commands[0].cmd == CALL
    && |commands[0].cmdArgs| == 1 && commands[0].cmdArgs[0].FnCallExpr?
  }

  /** A bare name is read as a command only if a telling argument or a pipe follows. */
  predicate HeadTells(commands: seq<Command>)
    requires commands != []
  {
    var head := commands[0];
    || Dotted(head.cmd)
    || (head.cmdArgs == [] && |commands| >= 2)
    || (head.cmdArgs != [] && !head.cmdArgs[0].BoolLit? && !head.cmdArgs[0].ListLit?)
  }

  /** The tokens of an expression end with a bare name that is a lone command, so that a minus must
      follow that begins no argument. */
  predicate Hangs(e: Expr) {
    match e
    case PipelineExpr(commands) => IsLone(commands)
    case BinOp(_, op, right) => Hangs(right) && Level(right) > OpLevel(op)
    case UnaryOp(_, operand) => Hangs(operand) && Level(operand) >= UNARY
    case _ => false
  }

  /** The trees that can be written down where what must follow a lone command does follow: only the
      left side of a difference may end with one, and its right side is no lone command. */
  ghost predicate Formed(e: Expr)
    decreases e, 1
  {
    match e
    case NumberLit(n) => Writable(n)
    case ListLit(elements) => AllPrintable(elements)
    case MapLit(pairs) => PairsPrintable(pairs)
    case IndexExpr(obj, index) => Formed(obj) && !Hangs(obj) && Formed(index) && !Hangs(index)
    case BinOp(left, op, right) =>
      && Formed(left) && Formed(right)
      && (Hangs(left) ==> op == SubOp && Level(left) >= OpLevel(op) && !IsLoneExpr(right))
      && (Hangs(right) ==> Level(right) > OpLevel(op))
    case UnaryOp(_, operand) => Formed(operand) && (Hangs(operand) ==> Level(operand) >= UNARY)
    case FnCallExpr(_, args) => AllPrintable(args)
    case PipelineExpr(commands) =>
      && commands != [] && CommandsPrintable(commands)
      && (|| IsLone(commands)
          || IsCallHead(commands)
          || (HeadTells(commands) && InARow(commands[0].cmdArgs, |commands| == 1)))
      && (forall i | 1 <= i < |commands| :: InARow(commands[i].cmdArgs, i == |commands| - 1))
    case _ => true
  }

  predicate IsLoneExpr(e: Expr) {
    e.PipelineExpr? && IsLone(e.commands)
  }

  /** The trees that can be written down anywhere. */
  ghost predicate Printable(e: Expr) {
    Formed(e) && !Hangs(e)
  }

  ghost predicate AllPrintable(es: seq<Expr>)
    decreases es, 0
  {
    forall i | 0 <= i < |es| :: Formed(es[i]) && !Hangs(es[i])
  }

  ghost predicate PairsPrintable(pairs: seq<Pair>)
    decreases pairs, 0
  {
    forall i | 0 <= i < |pairs| :: Formed(pairs[i].val) && !Hangs(pairs[i].val)
  }

  ghost predicate CommandsPrintable(commands: seq<Command>)
    decreases commands, 0
  {
    forall i | 0 <= i < |commands| :: AllPrintable(commands[i].cmdArgs)
  }

  // ----- freedoms -----

  function Lines(n: nat, rest: Tokens): Tokens {
    if n == 0 then rest else [NEWLINE] + Lines(n - 1, rest)
  }

  /** Any number of newlines. */
  function Gap(style: Style, rest: Tokens): Tokens {
    Lines(style.lines(rest), rest)
  }

  /** A bare name is read as a variable if neither an argument nor a pipe nor a parenthesis follows. */
  predicate IsPlain(rest: Tokens) {
    !LooksLikeArg(rest) && Peek(rest) != LPAREN && Peek(rest) != PIPE
  }

  /** What a pipeline without parentheses can stand before. */
  predicate EndsPipeline(rest: Tokens) {
    rest != [] && rest[0] in {RPAREN, RBRACKET, RBRACE, LBRACE, COMMA, NEWLINE, EOF, ASSIGN}
  }

  /** Whether an expression goes in parentheses where the grammar expects one of a level. */
  predicate Wrapped(style: Style, e: Expr, level: nat, rest: Tokens) {
    if Level(e) < 0 then level > 0 || !EndsPipeline(rest) || style.wrap(e, rest)
    else Level(e) < level || (style.wrap(e, rest) && !Hangs(e))
  }

  /** An argument that can be written as a flag. */
  predicate IsFlag(e: Expr) {
    e.StringLit? && |e.value| > 1 && e.value[0] == '-' && Lexer.IsIdent(e.value[1..])
  }

  // ----- expressions -----

  /** An expression where the grammar expects one of a level. */
  ghost function Tok(style: Style, e: Expr, level: nat, rest: Tokens): Tokens
    requires Formed(e)
    decreases e, 1
  {
    if Wrapped(style, e, level, rest) then [LPAREN] + Bare(style, e, [RPAREN] + rest) else Bare(style, e, rest)
  }

  /** The right side of a difference.  After a lone command it must not begin with a number or a name,
      so it stands in parentheses; if it ends with a lone command itself, its own left side does. */
  ghost function RightTok(style: Style, left: Expr, op: BinaryOp, right: Expr, rest: Tokens): Tokens
    requires Formed(right)
    decreases right, 2
  {
    if !Hangs(left) then Tok(style, right, OpLevel(op) + 1, rest)
    else if !Hangs(right) then [LPAREN] + Bare(style, right, [RPAREN] + rest)
    else if right.BinOp? then
      [LPAREN] + Bare(style, right.left,
                      [RPAREN] + ([OpToken(right.op)] + Tok(style, right.right, OpLevel(right.op) + 1, rest)))
    else Bare(style, right, rest)
  }

  /** The level of a binary operator's left operand: its own, except that comparisons do not chain. */
  function LeftLevel(op: BinaryOp): nat {
    if OpLevel(op) == COMPARE then COMPARE + 1 else OpLevel(op)
  }

  ghost function Bare(style: Style, e: Expr, rest: Tokens): Tokens
    requires Formed(e)
    decreases e, 0
  {
    match e
    case StringLit(s) => [STRING(s)] + rest
    case NumberLit(n) => [NUMBER(Numeral(n))] + rest
    case BoolLit(b) => [if b then TRUE else FALSE] + rest
    case NullLit => [NULL] + rest
    case ListLit(elements) => [LBRACKET] + Gap(style, Elements(style, elements, [RBRACKET] + rest))
    case MapLit(pairs) => [LBRACE] + Gap(style, Pairs(style, pairs, [RBRACE] + rest))
    case VarRef(name) => VarToks(style, name, rest)
    case IndexExpr(obj, index) =>
      Tok(style, obj, INDEXED, [LBRACKET] + Tok(style, index, 0, [RBRACKET] + rest))
    case BinOp(left, op, right) =>
      Tok(style, left, LeftLevel(op), [OpToken(op)] + RightTok(style, left, op, right, rest))
    case UnaryOp(op, operand) => [if op == NotOp then NOT else MINUS] + Tok(style, operand, UNARY, rest)
    case FnCallExpr(name, args) => [IDENT(name)] + ([LPAREN] + Items(style, args, [RPAREN] + rest))
    case PipelineExpr(commands) =>
      assert CommandsPrintable(commands);
      if IsCallHead(commands) then
        assert AllPrintable(commands[0].cmdArgs);
        Bare(style, commands[0].cmdArgs[0], Pipes(style, commands[1..], rest))
      else
        [CommandToken(commands[0].cmd)] + ArgToks(style, commands[0].cmdArgs, Pipes(style, commands[1..], rest))
  }

  /** A variable, with its dollar sign or without. */
  function VarToks(style: Style, name: string, rest: Tokens): Tokens {
    if style.bare(rest) && IsPlain(rest) then [IDENT(name)] + rest else [DOLLAR] + ([IDENT(name)] + rest)
  }

  /** The arguments of a call, with commas between them. */
  ghost function Items(style: Style, es: seq<Expr>, rest: Tokens): Tokens
    requires AllPrintable(es)
    decreases es
  {
    if es == [] then rest else Tok(style, es[0], 0, MoreToks(style, es[1..], rest))
  }

  /** Further arguments, each after a comma. */
  ghost function MoreToks(style: Style, es: seq<Expr>, rest: Tokens): Tokens
    requires AllPrintable(es)
    decreases es
  {
    if es == [] then rest else [COMMA] + Tok(style, es[0], 0, MoreToks(style, es[1..], rest))
  }

  /** The end of a list or map: a last comma, perhaps, and newlines. */
  function Closing(style: Style, close: Tokens): Tokens {
    if style.comma(close) then [COMMA] + Gap(style, close) else Gap(style, close)
  }

  /** The elements of a list up to its closing bracket. */
  ghost function Elements(style: Style, es: seq<Expr>, close: Tokens): Tokens
    requires AllPrintable(es)
    decreases es
  {
    if es == [] then close else Tok(style, es[0], 0, MoreElements(style, es[1..], close))
  }

  ghost function MoreElements(style: Style, es: seq<Expr>, close: Tokens): Tokens
    requires AllPrintable(es)
    decreases es
  {
    if es == [] then Closing(style, close)
    else [COMMA] + Gap(style, Tok(style, es[0], 0, MoreElements(style, es[1..], close)))
  }

  /** The pairs of a map up to its closing brace. */
  ghost function Pairs(style: Style, pairs: seq<Pair>, close: Tokens): Tokens
    requires PairsPrintable(pairs)
    decreases pairs, 1
  {
    if pairs == [] then close else PairToks(style, pairs[0], MorePairToks(style, pairs[1..], close))
  }

  ghost function PairToks(style: Style, pair: Pair, rest: Tokens): Tokens
    requires Printable(pair.val)
    decreases pair
  {
    [IDENT(pair.key)] + ([COLON] + Tok(style, pair.val, 0, rest))
  }

  ghost function MorePairToks(style: Style, pairs: seq<Pair>, close: Tokens): Tokens
    requires PairsPrintable(pairs)
    decreases pairs
  {
    if pairs == [] then Closing(style, close)
    else [COMMA] + Gap(style, PairToks(style, pairs[0], MorePairToks(style, pairs[1..], close)))
  }

  function CommandToken(name: string): Token {
    if Dotted(name) then DOTTED(name) else IDENT(name)
  }

  /** Arguments in a row. */
  ghost function ArgToks(style: Style, args: seq<Expr>, rest: Tokens): Tokens
    requires AllPrintable(args)
    decreases args
  {
    if args == [] then rest else ArgTok(style, args[0], ArgToks(style, args[1..], rest))
  }

  /** One argument: a variable keeps its dollar sign, a text may be a flag and a number a negated one, and
      a pipeline needs no parentheses, because it is the last. */
  ghost function ArgTok(style: Style, e: Expr, rest: Tokens): Tokens
    requires Printable(e)
    decreases e, 2
  {
    if IsPlace(e) then PlaceTok(style, e, rest)
    else if IsFlag(e) && style.dash(e, rest) then [MINUS] + ([IDENT(e.value[1..])] + rest)
    else if e.NumberLit? && Writable(Negate(e.num)) && style.dash(e, rest) then
      [MINUS] + ([NUMBER(Numeral(Negate(e.num)))] + rest)
    else Bare(style, e, rest)
  }

  /** A variable as an argument, and its indexes. */
  ghost function PlaceTok(style: Style, e: Expr, rest: Tokens): Tokens
    requires Printable(e) && IsPlace(e)
    decreases e, 1
  {
    if e.VarRef? then [DOLLAR] + ([IDENT(e.name)] + rest)
    else PlaceTok(style, e.obj, [LBRACKET] + Tok(style, e.index, 0, [RBRACKET] + rest))
  }

  /** Further commands, each after a pipe. */
  ghost function Pipes(style: Style, commands: seq<Command>, rest: Tokens): Tokens
    requires CommandsPrintable(commands)
    decreases commands
  {
    if commands == [] then rest
    else
      var args := ArgToks(style, commands[0].cmdArgs, Pipes(style, commands[1..], rest));
      [PIPE] + Gap(style, [CommandToken(commands[0].cmd)] + args)
  }

  // ----- statements -----

  ghost predicate StmtPrintable(s: Stmt)
    decreases s, 1
  {
    match s
    case LetStmt(_, value) => Printable(value)
    case AssignStmt(place, value) => (place.VarRef? || place.IndexExpr?) && Printable(place) && Printable(value)
    case IfStmt(cond, body, elifs, els) =>
      Printable(cond) && BlockPrintable(body) && ElifsPrintable(elifs) && (els.Else? ==> BlockPrintable(els.otherwise))
    case ForStmt(_, iterable, body) => Printable(iterable) && BlockPrintable(body)
    case FnDef(_, _, body) => BlockPrintable(body)
    case ReturnStmt(result) => result.Some? ==> Printable(result.value)
    case TryCatch(body, _, handler) => BlockPrintable(body) && BlockPrintable(handler)
    case ImportStmt(_) => true
    case ExprStmt(expr) => Printable(expr)
  }

  ghost predicate BlockPrintable(b: seq<Stmt>)
    decreases b, 0
  {
    forall i | 0 <= i < |b| :: StmtPrintable(b[i])
  }

  ghost predicate ElifsPrintable(elifs: seq<Elif>)
    decreases elifs, 0
  {
    forall i | 0 <= i < |elifs| :: Printable(elifs[i].test) && BlockPrintable(elifs[i].block)
  }

  /** The newlines after a statement: at least one, unless nothing more comes. */
  function StmtEnd(style: Style, rest: Tokens): Tokens {
    if Peek(rest) == RBRACE || Peek(rest) == EOF then Gap(style, rest) else [NEWLINE] + Gap(style, rest)
  }

  /** A statement and what ends it. */
  ghost function StmtToks(style: Style, s: Stmt, rest: Tokens): Tokens
    requires StmtPrintable(s)
    decreases s, 1
  {
    var end := StmtEnd(style, rest);
    match s
    case LetStmt(name, value) => [LET] + ([IDENT(name)] + ([ASSIGN] + Tok(style, value, 0, end)))
    case AssignStmt(place, value) => Tok(style, place, 0, [ASSIGN] + Tok(style, value, 0, end))
    case IfStmt(cond, body, elifs, els) =>
      [IF] + Tok(style, cond, 0, Braces(style, body, ElifToks(style, elifs, ElseToks(style, els, end))))
    case ForStmt(name, iterable, body) =>
      [FOR] + ([IDENT(name)] + ([IN] + Tok(style, iterable, 0, Braces(style, body, end))))
    case FnDef(name, params, body) =>
      [FN] + ([IDENT(name)] + ([LPAREN] + ParamToks(params, [RPAREN] + Braces(style, body, end))))
    case ReturnStmt(result) => [RETURN] + if result.Some? then Tok(style, result.value, 0, end) else end
    case TryCatch(body, name, handler) =>
      [TRY] + Braces(style, body, Gap(style, [CATCH] + ([IDENT(name)] + Braces(style, handler, end))))
    case ImportStmt(path) => [IMPORT] + ([STRING(path)] + end)
    case ExprStmt(expr) => Tok(style, expr, 0, end)
  }

  /** A block, with newlines before its opening brace and after it. */
  ghost function Braces(style: Style, b: seq<Stmt>, rest: Tokens): Tokens
    requires BlockPrintable(b)
    decreases b, 1
  {
    Gap(style, [LBRACE] + Gap(style, BlockToks(style, b, [RBRACE] + rest)))
  }

  ghost function BlockToks(style: Style, b: seq<Stmt>, rest: Tokens): Tokens
    requires BlockPrintable(b)
    decreases b, 0
  {
    if b == [] then rest else StmtToks(style, b[0], BlockToks(style, b[1..], rest))
  }

  ghost function ElifToks(style: Style, elifs: seq<Elif>, rest: Tokens): Tokens
    requires ElifsPrintable(elifs)
    decreases elifs, 0
  {
    if elifs == [] then rest
    else
      var more := ElifToks(style, elifs[1..], rest);
      Gap(style, [ELIF] + Tok(style, elifs[0].test, 0, Braces(style, elifs[0].block, more)))
  }

  ghost function ElseToks(style: Style, els: Else, end: Tokens): Tokens
    requires els.Else? ==> BlockPrintable(els.otherwise)
    decreases els, 2
  {
    if els.Else? then Gap(style, [ELSE] + Braces(style, els.otherwise, end)) else end
  }

  function ParamToks(params: seq<string>, rest: Tokens): Tokens {
    if params == [] then rest else [IDENT(params[0])] + MoreParamToks(params[1..], rest)
  }

  function MoreParamToks(params: seq<string>, rest: Tokens): Tokens {
    if params == [] then rest else [COMMA] + ([IDENT(params[0])] + MoreParamToks(params[1..], rest))
  }

  /** A whole program, with newlines before it. */
  ghost function ProgramToks(style: Style, program: seq<Stmt>): Tokens
    requires BlockPrintable(program)
  {
    Gap(style, BlockToks(style, program, [EOF]))
  }
}
