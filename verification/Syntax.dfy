/** Tokens and syntax trees of T2Script. */
module Syntax {
  import opened Wrappers

  datatype Token =
    | STRING(text: string) | NUMBER(text: string) | IDENT(name: string) | DOTTED(name: string)
    | LET | IF | ELIF | ELSE | FOR | IN | FN | RETURN | TRY | CATCH | IMPORT
    | TRUE | FALSE | NULL | AND | OR | NOT
    | PIPE | ASSIGN | DOLLAR | LBRACE | RBRACE | LBRACKET | RBRACKET | LPAREN | RPAREN | COMMA | COLON
    | PLUS | MINUS | STAR | SLASH | EQ | NE | LT | GT | LE | GE
    | NEWLINE | EOF

  datatype Num = Int(n: int) | Float(r: real)

  datatype BinaryOp =
    | OrOp | AndOp
    | EqOp | NeOp | LtOp | GtOp | LeOp | GeOp
    | AddOp | SubOp | MulOp | DivOp

  datatype PrefixOp = NotOp | NegOp

  datatype Expr =
    | StringLit(value: string)
    | NumberLit(num: Num)
    | BoolLit(b: bool)
    | NullLit
    | ListLit(elements: seq<Expr>)
    | MapLit(pairs: seq<Pair>)
    | VarRef(name: string)
    | IndexExpr(obj: Expr, index: Expr)
    | BinOp(left: Expr, op: BinaryOp, right: Expr)
    | UnaryOp(prefix: PrefixOp, operand: Expr)
    | FnCallExpr(fn: string, args: seq<Expr>)
    | PipelineExpr(commands: seq<Command>)

  datatype Pair = Pair(key: string, val: Expr)

  datatype Command = Command(cmd: string, cmdArgs: seq<Expr>)

  datatype Stmt =
    | LetStmt(target: string, value: Expr)
    | AssignStmt(place: Expr, value: Expr)
    | IfStmt(cond: Expr, body: seq<Stmt>, elifs: seq<Elif>, els: Else)
    | ForStmt(loopVar: string, iterable: Expr, body: seq<Stmt>)
    | FnDef(fn: string, params: seq<string>, body: seq<Stmt>)
    | ReturnStmt(result: Option<Expr>)
    | TryCatch(body: seq<Stmt>, catchVar: string, handler: seq<Stmt>)
    | ImportStmt(path: string)
    | ExprStmt(expr: Expr)

  datatype Else = NoElse | Else(otherwise: seq<Stmt>)

  datatype Elif = Elif(test: Expr, block: seq<Stmt>)

  /** The command under which the parser wraps a function call that heads a pipeline. */
  const CALL := "__call__"

  // ----- number lexemes -----

  predicate AllDigits(s: string) {
    forall i | 0 <= i < |s| :: '0' <= s[i] <= '9'
  }

  function Decimal(s: string): nat
    requires AllDigits(s)
  {
    if s == [] then 0 else 10 * Decimal(s[..|s| - 1]) + (s[|s| - 1] as int - '0' as int)
  }

  function Pow10(n: nat): (p: nat)
    ensures p > 0
  {
    if n == 0 then 1 else 10 * Pow10(n - 1)
  }

  /** The place of the first dot of a text, or its length. */
  function DotIndex(s: string): (i: nat)
    ensures i <= |s| && (i < |s| ==> s[i] == '.')
  {
    if s == [] || s[0] == '.' then 0 else 1 + DotIndex(s[1..])
  }

  /** The value of an unsigned numeral: an integer, or a decimal fraction with one dot; any other
      text makes the conversion raise. */
  function ReadUnsigned(s: string): Option<Num> {
    var i := DotIndex(s);
    if s == [] then None
    else if i == |s| then (if AllDigits(s) then Some(Int(Decimal(s))) else None)
    else
      var whole, frac := s[..i], s[i + 1..];
      if AllDigits(whole) && AllDigits(frac) && |s| > 1 then
        Some(Float((Decimal(whole) * Pow10(|frac|) + Decimal(frac)) as real / Pow10(|frac|) as real))
      else None
  }

  function Negate(n: Num): Num {
    match n case Int(i) => Int(-i) case Float(r) => Float(-r)
  }

  /** The texts the lexer reads as one number: digits and dots from a digit on, perhaps after a minus. */
  predicate IsNumeral(s: string) {
    var digits := if s != [] && s[0] == '-' then s[1..] else s;
    digits != [] && IsDigit(digits[0]) && forall i | 0 <= i < |digits| :: IsDigit(digits[i]) || digits[i] == '.'
  }

  predicate IsDigit(c: char) {
    '0' <= c <= '9'
  }

  /** The value of a NUMBER token's text. */
  function ReadNumber(s: string): Option<Num> {
    if s != [] && s[0] == '-' then
      match ReadUnsigned(s[1..]) case Some(n) => Some(Negate(n)) case None => None
    else ReadUnsigned(s)
  }
}
