/** How constructs run while the step limit is not reached: the rules from which whole programs are
    worked out, and what integer and truth-value expressions mean. */
module Evaluation {
  import opened Wrappers
  import opened Syntax
  import opened Values
  import opened Interpretation
  import opened Fuel
  import opened Marks

  /** The context `k` steps later. */
  function After(c: Ctx, k: nat): Ctx {
    c.(steps := c.steps + k)
  }

  /** With a variable set. */
  function With(c: Ctx, x: string, v: Value): Ctx {
    c.(scope := c.scope[x := v])
  }

  // ----- the mathematics of expressions -----

  /** Null, an integer, a real number, a truth value or a text. */
  datatype Plain = Nil | I(i: int) | R(r: real) | B(b: bool) | T(t: string)

  function ValueOf(p: Plain): Value {
    match p
    case Nil => Null
    case I(i) => Number(Int(i))
    case R(r) => Number(Float(r))
    case B(b) => Bool(b)
    case T(t) => Str(t)
  }

  function PlainOf(v: Value): Option<Plain> {
    match v
    case Null => Some(Nil)
    case Number(Int(n)) => Some(I(n))
    case Number(Float(r)) => Some(R(r))
    case Bool(b) => Some(B(b))
    case Str(t) => Some(T(t))
    case _ => None
  }

  /** Whether it counts as true: not null, nor zero, nor the empty text, nor the text `false`. */
  predicate Truth(p: Plain) {
    p != Nil && p != I(0) && p != R(0.0) && p != B(false) && p != T("") && p != T("false")
  }

  /** The integer it stands for in arithmetic, unless it is a real number or a text. */
  function Whole(p: Plain): Option<int> {
    match p
    case Nil => Some(0)
    case I(i) => Some(i)
    case B(b) => Some(if b then 1 else 0)
    case _ => None
  }

  function Magnitude(p: Plain): real
    requires !p.T?
  {
    if p.R? then p.r else Whole(p).value as real
  }

  /** The text that is joined to another. */
  function Word(p: Plain): Option<string> {
    match p
    case Nil => Some("")
    case I(i) => Some(IntText(i))
    case B(b) => Some(if b then "true" else "false")
    case T(t) => Some(t)
    case R(_) => None
  }

  /** Numbers and truth values are equal by magnitude, and others when they are the same. */
  predicate Equal(a: Plain, b: Plain) {
    if a.T? || a.Nil? || b.T? || b.Nil? then a == b else Magnitude(a) == Magnitude(b)
  }

  /** What an operator makes of two such values; the arithmetic of texts, which are read as numbers, and
      the texts of real numbers are left out. */
  function Operation(op: BinaryOp, a: Plain, b: Plain): Option<Plain> {
    if op == AndOp then Some(if Truth(a) then b else a)
    else if op == OrOp then Some(if Truth(a) then a else b)
    else if op == EqOp then Some(B(Equal(a, b)))
    else if op == NeOp then Some(B(!Equal(a, b)))
    else if !a.T? && !b.T? then OnNumbers(op, a, b)
    else if op == AddOp && Word(a).Some? && Word(b).Some? then Some(T(Word(a).value + Word(b).value))
    else None
  }

  function OnNumbers(op: BinaryOp, a: Plain, b: Plain): Option<Plain>
    requires !a.T? && !b.T?
  {
    var x, y := Magnitude(a), Magnitude(b);
    var i, j := Whole(a), Whole(b);
    var whole := i.Some? && j.Some?;
    match op
    case AddOp => Some(if whole then I(i.value + j.value) else R(x + y))
    case SubOp => Some(if whole then I(i.value - j.value) else R(x - y))
    case MulOp => Some(if whole then I(i.value * j.value) else R(x * y))
    case DivOp => if y == 0.0 then None else Some(R(x / y))
    case LtOp => Some(B(x < y))
    case GtOp => Some(B(x > y))
    case LeOp => Some(B(x <= y))
    case GeOp => Some(B(x >= y))
    case _ => None
  }

  /** What an expression of such values means, if it is one. */
  function Meaning(e: Expr, scope: Scope): Option<Plain> {
    match e
    case NullLit => Some(Nil)
    case NumberLit(Int(n)) => Some(I(n))
    case NumberLit(Float(r)) => Some(R(r))
    case BoolLit(b) => Some(B(b))
    case StringLit(s) => if NoMarks(s) then Some(T(s)) else None
    case VarRef(x) => if x in scope then PlainOf(scope[x]) else None
    case UnaryOp(NotOp, e) => (match Meaning(e, scope) case Some(p) => Some(B(!Truth(p))) case _ => None)
    case UnaryOp(NegOp, e) => (match Meaning(e, scope) case Some(p) => Opposite(p) case _ => None)
    case BinOp(l, op, r) =>
      var a := Meaning(l, scope);
      if Settles(op, a) then a
      else
        var b := Meaning(r, scope);
        if a.Some? && b.Some? then Operation(op, a.value, b.value) else None
    case _ => None
  }

  function Opposite(p: Plain): Option<Plain> {
    if p.T? then None else if p.R? then Some(R(-p.r)) else Some(I(-Whole(p).value))
  }

  /** The left operand of `and` or `or` settles the matter. */
  predicate Settles(op: BinaryOp, left: Option<Plain>) {
    left.Some? && ((op == AndOp && !Truth(left.value)) || (op == OrOp && Truth(left.value)))
  }

  /** The steps the evaluation takes. */
  function Cost(e: Expr, scope: Scope): nat {
    match e
    case UnaryOp(_, e) => 1 + Cost(e, scope)
    case BinOp(l, op, r) => 1 + Cost(l, scope) + if Settles(op, Meaning(l, scope)) then 0 else Cost(r, scope)
    case _ => 1
  }

  function NumOf(p: Plain): Num
    requires !p.T?
  {
    if p.R? then Float(p.r) else Int(Whole(p).value)
  }

  lemma NumbersOf(py: Runtime, p: Plain)
    requires !p.T?
    ensures ToNumber(py, ValueOf(p)) == NumOf(p) && AsReal(NumOf(p)) == Magnitude(p)
    ensures NumOf(p).Int? == Whole(p).Some? && !ValueOf(p).Str?
  {
  }

  lemma NumbersAreMathematics(py: Runtime, op: BinaryOp, a: Plain, b: Plain, heap: Heap)
    requires op !in {AndOp, OrOp, EqOp, NeOp} && !a.T? && !b.T? && OnNumbers(op, a, b).Some?
    ensures Apply(py, op, ValueOf(a), ValueOf(b), heap) == Gives(ValueOf(OnNumbers(op, a, b).value))
  {
    NumbersOf(py, a);
    NumbersOf(py, b);
    var m, n := NumOf(a), NumOf(b);
    hide Interpolate, IntText, AsReal, Magnitude, ToNumber, ToText, Show, Same;
    match op
    case AddOp => assert Arith(op, m, n) == NumOf(OnNumbers(op, a, b).value);
    case SubOp => assert Arith(op, m, n) == NumOf(OnNumbers(op, a, b).value);
    case MulOp => assert Arith(op, m, n) == NumOf(OnNumbers(op, a, b).value);
    case _ =>
  }

  lemma WordsAreTexts(py: Runtime, p: Plain, heap: Heap)
    requires Word(p).Some?
    ensures ToText(py, ValueOf(p), heap) == Gives(Word(p).value)
  {
    hide IntText;
  }

  lemma TextsAreMathematics(py: Runtime, a: Plain, b: Plain, heap: Heap)
    requires (a.T? || b.T?) && Operation(AddOp, a, b).Some?
    ensures Apply(py, AddOp, ValueOf(a), ValueOf(b), heap) == Gives(ValueOf(Operation(AddOp, a, b).value))
  {
    WordsAreTexts(py, a, heap);
    WordsAreTexts(py, b, heap);
    hide Interpolate, IntText, OnNumbers, ToText, ToNumber, Arith, Word;
  }

  lemma SameIsEqual(py: Runtime, a: Plain, b: Plain, heap: Heap)
    ensures Same(py, ValueOf(a), ValueOf(b), heap) == Gives(Equal(a, b))
  {
  }

  lemma OperatorsAreMathematics(py: Runtime, op: BinaryOp, a: Plain, b: Plain, heap: Heap)
    requires op != AndOp && op != OrOp && Operation(op, a, b).Some?
    ensures Apply(py, op, ValueOf(a), ValueOf(b), heap) == Gives(ValueOf(Operation(op, a, b).value))
  {
    if op == EqOp || op == NeOp {
      SameIsEqual(py, a, b, heap);
    } else if !a.T? && !b.T? {
      NumbersAreMathematics(py, op, a, b, heap);
    } else {
      TextsAreMathematics(py, a, b, heap);
    }
    hide OnNumbers, IntText, Same, Equal, ToText, ToNumber, Arith, Word;
  }

  lemma TruthOf(p: Plain, heap: Heap)
    ensures Truthy(ValueOf(p), heap) == Truth(p)
  {
  }

  lemma PlainValues(v: Value)
    ensures PlainOf(v).Some? ==> ValueOf(PlainOf(v).value) == v
  {
  }

  /** Within the limit every such expression evaluates to what it means, and changes nothing but the
      step counter. */
  lemma {:induction false} ExpressionsMeanTheirMathematics(env: Env, e: Expr, c: Ctx)
    requires Meaning(e, c.scope).Some? && c.steps + Cost(e, c.scope) <= env.maxSteps
    ensures Eval(env, e, c) == Got(ValueOf(Meaning(e, c.scope).value), After(c, Cost(e, c.scope)))
    decreases e, 1
  {
    hide Debt, Credit, Apply, Operation, Truthy, NoMarks, Interpolate;
    var d := After(c, 1);
    assert Tick(env, c) == Got((), d);
    match e
    case VarRef(x) => PlainValues(c.scope[x]);
    case StringLit(t) => TextStays(env.py, t, c.scope, c.heap);
    case UnaryOp(op, operand) => PrefixMeans(env, op, operand, c);
    case BinOp(l, op, r) =>
      if op == AndOp || op == OrOp { ShortMeans(env, l, op, r, c); } else { StrictMeans(env, l, op, r, c); }
    case _ =>
  }

  lemma {:induction false} PrefixMeans(env: Env, op: PrefixOp, operand: Expr, c: Ctx)
    requires var e := UnaryOp(op, operand); Meaning(e, c.scope).Some? && c.steps + Cost(e, c.scope) <= env.maxSteps
    ensures var e := UnaryOp(op, operand);
      Eval(env, e, c) == Got(ValueOf(Meaning(e, c.scope).value), After(c, Cost(e, c.scope)))
    decreases UnaryOp(op, operand), 0
  {
    hide Eval, Debt, Credit, Operation, Tick, NoMarks, Truthy, Truth, Opposite, ToNumber;
    var d := After(c, 1);
    PrefixSteps(env, op, operand, c);
    ExpressionsMeanTheirMathematics(env, operand, d);
    var a := Meaning(operand, c.scope).value;
    if op == NotOp { TruthOf(a, After(d, Cost(operand, c.scope)).heap); } else { OppositeIs(env.py, a); }
  }

  lemma OppositeIs(py: Runtime, p: Plain)
    requires Opposite(p).Some?
    ensures Number(Negate(ToNumber(py, ValueOf(p)))) == ValueOf(Opposite(p).value)
  {
    NumbersOf(py, p);
    hide ToNumber, AsReal, Magnitude;
  }

  lemma PrefixSteps(env: Env, op: PrefixOp, e: Expr, c: Ctx)
    requires c.steps < env.maxSteps
    ensures Eval(env, UnaryOp(op, e), c) == EvalPrefix(env, op, e, After(c, 1))
  {
    hide EvalPrefix, Debt, Credit;
    assert Tick(env, c) == Got((), After(c, 1));
  }

  lemma BinarySteps(env: Env, l: Expr, op: BinaryOp, r: Expr, c: Ctx)
    requires c.steps < env.maxSteps
    ensures Eval(env, BinOp(l, op, r), c) == EvalBinary(env, l, op, r, After(c, 1))
  {
    hide EvalBinary, Debt, Credit;
    assert Tick(env, c) == Got((), After(c, 1));
  }

  lemma IndexSteps(env: Env, o: Expr, i: Expr, c: Ctx)
    requires c.steps < env.maxSteps
    ensures Eval(env, IndexExpr(o, i), c) == EvalIndex(env, o, i, After(c, 1))
  {
    hide EvalIndex, Debt, Credit;
    assert Tick(env, c) == Got((), After(c, 1));
  }

  lemma MapSteps(env: Env, pairs: seq<Pair>, c: Ctx)
    requires c.steps < env.maxSteps
    ensures Eval(env, MapLit(pairs), c) == EvalMap(env, pairs, After(c, 1))
  {
    hide EvalMap, Debt, Credit;
    assert Tick(env, c) == Got((), After(c, 1));
  }

  lemma {:induction false} StrictMeans(env: Env, l: Expr, op: BinaryOp, r: Expr, c: Ctx)
    requires op != AndOp && op != OrOp
    requires var e := BinOp(l, op, r); Meaning(e, c.scope).Some? && c.steps + Cost(e, c.scope) <= env.maxSteps
    ensures var e := BinOp(l, op, r);
      Eval(env, e, c) == Got(ValueOf(Meaning(e, c.scope).value), After(c, Cost(e, c.scope)))
    decreases BinOp(l, op, r), 0
  {
    hide Eval, EvalAll, Debt, Credit, Apply, Operation, Tick, NoMarks;
    var d := After(c, 1);
    BinarySteps(env, l, op, r, c);
    var a, b := Meaning(l, c.scope).value, Meaning(r, c.scope).value;
    ExpressionsMeanTheirMathematics(env, l, d);
    ExpressionsMeanTheirMathematics(env, r, After(d, Cost(l, c.scope)));
    AllOfTwo(env, l, r, d);
    OperatorsAreMathematics(env.py, op, a, b, c.heap);
  }

  lemma {:induction false} ShortMeans(env: Env, l: Expr, op: BinaryOp, r: Expr, c: Ctx)
    requires op == AndOp || op == OrOp
    requires var e := BinOp(l, op, r); Meaning(e, c.scope).Some? && c.steps + Cost(e, c.scope) <= env.maxSteps
    ensures var e := BinOp(l, op, r);
      Eval(env, e, c) == Got(ValueOf(Meaning(e, c.scope).value), After(c, Cost(e, c.scope)))
    decreases BinOp(l, op, r), 0
  {
    hide Eval, Debt, Credit, Truthy, Tick, NoMarks, Truth;
    var d := After(c, 1);
    BinarySteps(env, l, op, r, c);
    var a := Meaning(l, c.scope).value;
    ExpressionsMeanTheirMathematics(env, l, d);
    var m := After(d, Cost(l, c.scope));
    assert EvalShort(env, l, op == AndOp, r, d) == EvalRight(env, ValueOf(a), op == AndOp, r, m);
    TruthOf(a, m.heap);
    if !Settles(op, Some(a)) {
      ExpressionsMeanTheirMathematics(env, r, m);
    }
  }

  /** An operator on what its two sides give. */
  lemma OperatorGives(env: Env, l: Expr, op: BinaryOp, r: Expr, c: Ctx, a: Plain, d: Ctx, b: Plain, e: Ctx)
    requires op != AndOp && op != OrOp && Operation(op, a, b).Some? && c.steps < env.maxSteps
    requires Eval(env, l, After(c, 1)) == Got(ValueOf(a), d) && Eval(env, r, d) == Got(ValueOf(b), e)
    ensures Eval(env, BinOp(l, op, r), c) == Got(ValueOf(Operation(op, a, b).value), e)
  {
    OperatorsAreMathematics(env.py, op, a, b, e.heap);
    StrictGives(env, l, op, r, c, ValueOf(a), d, ValueOf(b), e);
    hide Eval, Apply, Operation;
  }

  /** What a strict operator makes of the values of its two sides. */
  lemma StrictGives(env: Env, l: Expr, op: BinaryOp, r: Expr, c: Ctx, v: Value, d: Ctx, w: Value, e: Ctx)
    requires op != AndOp && op != OrOp && c.steps < env.maxSteps
    requires Eval(env, l, After(c, 1)) == Got(v, d) && Eval(env, r, d) == Got(w, e)
    ensures Eval(env, BinOp(l, op, r), c) == Settle(Apply(env.py, op, v, w, e.heap), e)
  {
    hide Eval, EvalAll, Debt, Credit, Apply, Tick;
    BinarySteps(env, l, op, r, c);
    AllOfTwo(env, l, r, After(c, 1));
  }

  /** `and` goes on to its right side when the left one is true, and `or` when it is false; either gives
      the side it came to last. */
  lemma ShortGives(env: Env, l: Expr, op: BinaryOp, r: Expr, c: Ctx, v: Value, d: Ctx)
    requires op in {AndOp, OrOp} && c.steps < env.maxSteps && Eval(env, l, After(c, 1)) == Got(v, d)
    ensures Eval(env, BinOp(l, op, r), c)
         == if Truthy(v, d.heap) == (op == AndOp) then Eval(env, r, d) else Got(v, d)
  {
    hide Eval, Debt, Credit, Truthy, Tick;
    BinarySteps(env, l, op, r, c);
    assert EvalShort(env, l, op == AndOp, r, After(c, 1)) == EvalRight(env, v, op == AndOp, r, d);
  }

  /** An error in the left operand is the error of the whole, and the right one is not looked at. */
  lemma LeftRaises(env: Env, l: Expr, op: BinaryOp, r: Expr, c: Ctx, f: Fault, d: Ctx)
    requires op != AndOp && op != OrOp && c.steps < env.maxSteps && Eval(env, l, After(c, 1)) == Raised(f, d)
    ensures Eval(env, BinOp(l, op, r), c) == Raised(f, d)
  {
    hide Eval, EvalAll, Debt, Credit, Apply, Tick;
    BinarySteps(env, l, op, r, c);
    AllOfTwo(env, l, r, After(c, 1));
  }

  /** An error in the value that is to be assigned comes before the place is looked at. */
  lemma AssignRaises(env: Env, place: Expr, e: Expr, c: Ctx, f: Fault, d: Ctx)
    requires c.steps < env.maxSteps && Eval(env, e, After(c, 1)) == Raised(f, d)
    ensures Exec(env, AssignStmt(place, e), c) == Raised(f, d)
  {
    hide Eval, AssignTo, Debt, Credit;
    assert Tick(env, c) == Got((), After(c, 1));
    assert ExecAssign(env, place, e, After(c, 1)) == Raised(f, d);
  }

  lemma UndefinedRaises(env: Env, x: string, c: Ctx)
    requires c.steps < env.maxSteps && x !in c.scope && x !in c.functions
    ensures Eval(env, VarRef(x), c) == Raised(ScriptFault("Undefined variable: " + x), After(c, 1))
  {
    hide Debt, Credit;
    assert Tick(env, c) == Got((), After(c, 1));
  }

  /** An error in the right operand is the error of the whole. */
  lemma OperandRaises(env: Env, l: Expr, op: BinaryOp, r: Expr, c: Ctx, v: Value, d: Ctx, f: Fault, e: Ctx)
    requires op != AndOp && op != OrOp && c.steps < env.maxSteps
    requires Eval(env, l, After(c, 1)) == Got(v, d) && Eval(env, r, d) == Raised(f, e)
    ensures Eval(env, BinOp(l, op, r), c) == Raised(f, e)
  {
    hide Eval, EvalAll, Debt, Credit, Apply, Tick;
    BinarySteps(env, l, op, r, c);
    AllOfTwo(env, l, r, After(c, 1));
  }

  lemma ReturnRaises(env: Env, e: Expr, c: Ctx, f: Fault, d: Ctx)
    requires c.steps < env.maxSteps && Eval(env, e, After(c, 1)) == Raised(f, d)
    ensures Exec(env, ReturnStmt(Some(e)), c) == Raised(f, d)
  {
    hide Eval, Debt, Credit;
    assert Tick(env, c) == Got((), After(c, 1));
  }

  // ----- statements -----

  lemma LetGives(env: Env, x: string, e: Expr, c: Ctx, v: Value, d: Ctx)
    requires c.steps < env.maxSteps && Eval(env, e, After(c, 1)) == Got(v, d)
    ensures Exec(env, LetStmt(x, e), c) == Got(Next, With(d, x, v))
  {
    hide Eval, Debt, Credit;
    assert Tick(env, c) == Got((), After(c, 1));
  }

  lemma AssignGives(env: Env, x: string, e: Expr, c: Ctx, v: Value, d: Ctx)
    requires c.steps < env.maxSteps && Eval(env, e, After(c, 1)) == Got(v, d)
    ensures Exec(env, AssignStmt(VarRef(x), e), c) == Got(Next, With(d, x, v))
  {
    hide Eval, Debt, Credit;
    assert Tick(env, c) == Got((), After(c, 1));
    assert ExecAssign(env, VarRef(x), e, After(c, 1)) == AssignTo(env, VarRef(x), v, d);
  }

  lemma ReturnGives(env: Env, e: Expr, c: Ctx, v: Value, d: Ctx)
    requires c.steps < env.maxSteps && Eval(env, e, After(c, 1)) == Got(v, d)
    ensures Exec(env, ReturnStmt(Some(e)), c) == Got(Return(v), d)
  {
    hide Eval, Debt, Credit;
    assert Tick(env, c) == Got((), After(c, 1));
  }

  lemma PlainLet(env: Env, x: string, e: Expr, c: Ctx)
    requires Meaning(e, c.scope).Some? && c.steps + 1 + Cost(e, c.scope) <= env.maxSteps
    ensures Exec(env, LetStmt(x, e), c)
         == Got(Next, With(After(c, 1 + Cost(e, c.scope)), x, ValueOf(Meaning(e, c.scope).value)))
  {
    hide Eval, Exec, Meaning, Cost;
    ExpressionsMeanTheirMathematics(env, e, After(c, 1));
    LetGives(env, x, e, c, ValueOf(Meaning(e, c.scope).value), After(c, 1 + Cost(e, c.scope)));
  }

  lemma PlainAssign(env: Env, x: string, e: Expr, c: Ctx)
    requires Meaning(e, c.scope).Some? && c.steps + 1 + Cost(e, c.scope) <= env.maxSteps
    ensures Exec(env, AssignStmt(VarRef(x), e), c)
         == Got(Next, With(After(c, 1 + Cost(e, c.scope)), x, ValueOf(Meaning(e, c.scope).value)))
  {
    hide Eval, Exec, Meaning, Cost;
    ExpressionsMeanTheirMathematics(env, e, After(c, 1));
    AssignGives(env, x, e, c, ValueOf(Meaning(e, c.scope).value), After(c, 1 + Cost(e, c.scope)));
  }

  lemma PlainReturn(env: Env, e: Expr, c: Ctx)
    requires Meaning(e, c.scope).Some? && c.steps + 1 + Cost(e, c.scope) <= env.maxSteps
    ensures Exec(env, ReturnStmt(Some(e)), c)
         == Got(Return(ValueOf(Meaning(e, c.scope).value)), After(c, 1 + Cost(e, c.scope)))
  {
    hide Eval, Exec, Meaning, Cost;
    ExpressionsMeanTheirMathematics(env, e, After(c, 1));
    ReturnGives(env, e, c, ValueOf(Meaning(e, c.scope).value), After(c, 1 + Cost(e, c.scope)));
  }

  /** The branches of an `if`: the blocks in the order of their tests, and the one without a test. */
  /** A test that means something true. */
  predicate Holds(test: Expr, scope: Scope) {
    Meaning(test, scope).Some? && Truth(Meaning(test, scope).value)
  }

  function Chosen(tests: seq<Elif>, els: Else, scope: Scope): seq<Stmt> {
    if tests == [] then (match els case Else(body) => body case NoElse => [])
    else if Holds(tests[0].test, scope) then tests[0].block
    else Chosen(tests[1..], els, scope)
  }

  function ChoiceCost(tests: seq<Elif>, scope: Scope): nat {
    if tests == [] then 0
    else if Holds(tests[0].test, scope) then Cost(tests[0].test, scope)
    else Cost(tests[0].test, scope) + ChoiceCost(tests[1..], scope)
  }

  predicate TestsArePlain(tests: seq<Elif>, scope: Scope) {
    forall i | 0 <= i < |tests| :: Meaning(tests[i].test, scope).Some?
  }

  lemma {:induction false} PlainElifs(env: Env, elifs: seq<Elif>, els: Else, c: Ctx)
    requires TestsArePlain(elifs, c.scope) && c.steps + ChoiceCost(elifs, c.scope) <= env.maxSteps
    ensures ExecElifs(env, elifs, els, c)
         == Block(env, Chosen(elifs, els, c.scope), After(c, ChoiceCost(elifs, c.scope)))
    decreases |elifs|
  {
    hide Eval, Debt, Credit, Meaning, Cost, Exec, Truth, Truthy;
    if elifs != [] {
      var test := elifs[0].test;
      var d := After(c, Cost(test, c.scope));
      assert Meaning(test, c.scope).Some?;
      ExpressionsMeanTheirMathematics(env, test, c);
      TruthOf(Meaning(test, c.scope).value, d.heap);
      if !Holds(test, c.scope) { PlainElifs(env, elifs[1..], els, d); }
    }
  }

  /** An `if` with such tests runs the first block whose test is true, or the last one. */
  lemma PlainIf(env: Env, cond: Expr, body: seq<Stmt>, elifs: seq<Elif>, els: Else, c: Ctx)
    requires var tests := [Elif(cond, body)] + elifs;
      TestsArePlain(tests, c.scope) && c.steps + 1 + ChoiceCost(tests, c.scope) <= env.maxSteps
    ensures var tests := [Elif(cond, body)] + elifs;
      Exec(env, IfStmt(cond, body, elifs, els), c)
        == Block(env, Chosen(tests, els, c.scope), After(c, 1 + ChoiceCost(tests, c.scope)))
  {
    hide *;
    FirstChoice(cond, body, elifs, els, c.scope);
    AfterTwice(c, 1, 0);
    var p := Meaning(cond, c.scope).value;
    var k := Cost(cond, c.scope);
    ExpressionsMeanTheirMathematics(env, cond, After(c, 1));
    AfterTwice(c, 1, k);
    TruthOf(p, After(c, 1 + k).heap);
    IfGoes(env, cond, body, elifs, els, c, p, After(c, 1 + k));
    if !Truth(p) {
      AfterTwice(c, 1 + k, ChoiceCost(elifs, c.scope));
      PlainElifs(env, elifs, els, After(c, 1 + k));
    }
  }

  lemma AfterTwice(c: Ctx, i: nat, j: nat)
    ensures After(After(c, i), j) == After(c, i + j)
    ensures After(c, i).steps == c.steps + i && After(c, i).scope == c.scope
    ensures After(c, i).functions == c.functions && After(c, i).depth == c.depth
  {
  }

  lemma FirstChoice(cond: Expr, body: seq<Stmt>, elifs: seq<Elif>, els: Else, scope: Scope)
    requires TestsArePlain([Elif(cond, body)] + elifs, scope)
    ensures Meaning(cond, scope).Some? && TestsArePlain(elifs, scope)
    ensures var tests, b := [Elif(cond, body)] + elifs, Truth(Meaning(cond, scope).value);
      && Chosen(tests, els, scope) == (if b then body else Chosen(elifs, els, scope))
      && ChoiceCost(tests, scope) == Cost(cond, scope) + (if b then 0 else ChoiceCost(elifs, scope))
  {
    var tests := [Elif(cond, body)] + elifs;
    hide Meaning, Cost, Truth;
    assert tests[0].test == cond && tests[0].block == body && tests[1..] == elifs;
    assert Meaning(tests[0].test, scope).Some?;
    forall i | 0 <= i < |elifs| ensures Meaning(elifs[i].test, scope).Some? {
      assert elifs[i] == tests[i + 1];
    }
  }

  lemma IfGoes(env: Env, cond: Expr, body: seq<Stmt>, elifs: seq<Elif>, els: Else, c: Ctx, p: Plain, d: Ctx)
    requires c.steps < env.maxSteps && Eval(env, cond, After(c, 1)) == Got(ValueOf(p), d)
    requires Truthy(ValueOf(p), d.heap) == Truth(p)
    ensures Exec(env, IfStmt(cond, body, elifs, els), c)
         == if Truth(p) then Block(env, body, d) else ExecElifs(env, elifs, els, d)
  {
    hide Eval, ExecElifs, Block, Truthy, Truth, Debt, Credit;
    assert Tick(env, c) == Got((), After(c, 1));
  }

  /** An `if` with one test of any value. */
  lemma IfValue(env: Env, cond: Expr, body: seq<Stmt>, c: Ctx, v: Value, d: Ctx)
    requires c.steps < env.maxSteps && Eval(env, cond, After(c, 1)) == Got(v, d)
    ensures Exec(env, IfStmt(cond, body, [], NoElse), c)
         == if Truthy(v, d.heap) then Block(env, body, d) else Got(Next, d)
  {
    hide Eval, Block, Truthy, Debt, Credit;
    assert Tick(env, c) == Got((), After(c, 1));
    assert ExecElifs(env, [], NoElse, d) == Got(Next, d);
  }

  // ----- blocks -----

  lemma InOrder(env: Env, s: Stmt, rest: seq<Stmt>, c: Ctx)
    ensures Block(env, [s] + rest, c) ==
      var r := Exec(env, s, c);
      if r.Got? && r.value.Next? then Block(env, rest, r.ctx) else r
  {
    hide Exec;
    assert ([s] + rest)[1..] == rest;
  }

  lemma NothingToDo(env: Env, c: Ctx)
    ensures Block(env, [], c) == Got(Next, c)
  {
  }

  // ----- calls -----

  /** A call of a function of one parameter, of which the body returns. */
  lemma CallReturns(env: Env, f: string, fn: Fn, e: Expr, c: Ctx, v: Value, k: nat)
    requires f !in UTILITIES && f in c.functions && c.functions[f] == fn && |fn.params| == 1
    requires Meaning(e, c.scope).Some? && c.steps + 1 + Cost(e, c.scope) <= env.maxSteps && c.depth < env.maxDepth
    requires var d := After(c, 1 + Cost(e, c.scope));
      var inner := With(d, fn.params[0], ValueOf(Meaning(e, c.scope).value)).(depth := c.depth + 1);
      Block(env, fn.body, inner) == Got(Return(v), After(inner, k))
    ensures Eval(env, FnCallExpr(f, [e]), c) == Got(v, After(c, 1 + Cost(e, c.scope) + k))
  {
    hide Eval, EvalAll, CallUser, Block, Bind, Meaning, Cost;
    var arg := ValueOf(Meaning(e, c.scope).value);
    var d := After(c, 1 + Cost(e, c.scope));
    ExpressionsMeanTheirMathematics(env, e, After(c, 1));
    AllOfOne(env, e, After(c, 1));
    BindOne(c.scope, fn.params, arg);
    BodyReturns(env, fn, [arg], d, v, k);
    CallGoes(env, f, fn, [e], c, [arg], d);
  }

  lemma CallGoes(env: Env, f: string, fn: Fn, es: seq<Expr>, c: Ctx, vs: seq<Value>, d: Ctx)
    requires f !in UTILITIES && f in d.functions && d.functions[f] == fn
    requires c.steps < env.maxSteps && EvalAll(env, es, After(c, 1)) == Got(vs, d)
    ensures Eval(env, FnCallExpr(f, es), c) == CallUser(env, fn, vs, Null, d)
  {
    hide EvalAll, CallUser, Debt, Credit;
    assert Tick(env, c) == Got((), After(c, 1));
  }

  lemma BodyReturns(env: Env, fn: Fn, vs: seq<Value>, c: Ctx, v: Value, k: nat)
    requires c.depth < env.maxDepth
    requires var inner := c.(depth := c.depth + 1, scope := Bind(c.scope, fn.params, vs));
      Block(env, fn.body, inner) == Got(Return(v), After(inner, k))
    ensures CallUser(env, fn, vs, Null, c) == Got(v, After(c, k))
  {
    hide Block, Bind, Debt, Credit;
  }

  /** A call gives what the body returns, or null, and the caller's variables and depth come back. */
  lemma CallEnds(env: Env, fn: Fn, vs: seq<Value>, c: Ctx, flow: Flow, d: Ctx)
    requires c.depth < env.maxDepth && d.depth == c.depth + 1
    requires Block(env, fn.body, c.(depth := c.depth + 1, scope := Bind(c.scope, fn.params, vs))) == Got(flow, d)
    ensures CallUser(env, fn, vs, Null, c)
         == Got(if flow.Return? then flow.v else Null, d.(scope := c.scope, depth := c.depth))
  {
    hide Block, Bind, Debt, Credit;
  }

  lemma CallRaises(env: Env, fn: Fn, vs: seq<Value>, c: Ctx)
    requires c.depth < env.maxDepth
    requires Block(env, fn.body, c.(depth := c.depth + 1, scope := Bind(c.scope, fn.params, vs))).Raised?
    ensures var b := Block(env, fn.body, c.(depth := c.depth + 1, scope := Bind(c.scope, fn.params, vs)));
      var r := CallUser(env, fn, vs, Null, c);
      r.Raised? && r.fault == b.fault && r.ctx.steps == b.ctx.steps
  {
    hide Block, Bind, Debt, Credit;
  }

  lemma BindOne(scope: Scope, params: seq<string>, arg: Value)
    requires |params| == 1
    ensures Bind(scope, params, [arg]) == scope[params[0] := arg]
  {
    assert Bind(scope[params[0] := arg], params[1..], [arg][1..]) == scope[params[0] := arg];
  }

  // ----- lists and loops -----

  function IntValues(xs: seq<int>): seq<Value> {
    seq(|xs|, i requires 0 <= i < |xs| => Number(Int(xs[i])))
  }

  function Numbers(xs: seq<int>): seq<Expr> {
    seq(|xs|, i requires 0 <= i < |xs| => NumberLit(Int(xs[i])))
  }

  lemma {:induction false} AllNumbers(env: Env, xs: seq<int>, c: Ctx)
    requires c.steps + |xs| <= env.maxSteps
    ensures EvalAll(env, Numbers(xs), c) == Got(IntValues(xs), After(c, |xs|))
    decreases |xs|
  {
    if xs == [] {
      assert Numbers(xs) == [] && IntValues(xs) == [];
    } else {
      var es, v := Numbers(xs), Number(Int(xs[0]));
      assert es[0] == NumberLit(Int(xs[0])) && es[1..] == Numbers(xs[1..]);
      assert Tick(env, c) == Got((), After(c, 1));
      assert Eval(env, es[0], c) == Got(v, After(c, 1));
      AllNumbers(env, xs[1..], After(c, 1));
      AfterTwice(c, 1, |xs| - 1);
      assert [v] + IntValues(xs[1..]) == IntValues(xs);
      hide Eval, Debt, Credit, EvalAll;
      AllOfMore(env, es, c, v, After(c, 1), IntValues(xs[1..]), After(c, |xs|));
    }
  }

  lemma AllOfMore(env: Env, es: seq<Expr>, c: Ctx, v: Value, d: Ctx, vs: seq<Value>, f: Ctx)
    requires es != [] && Eval(env, es[0], c) == Got(v, d) && EvalAll(env, es[1..], d) == Got(vs, f)
    ensures EvalAll(env, es, c) == Got([v] + vs, f)
  {
    hide Eval, Debt, Credit;
  }

  /** The context with one more object in the heap. */
  function Holding(c: Ctx, obj: Obj): Ctx {
    c.(heap := c.heap + [obj])
  }

  lemma ListGives(env: Env, xs: seq<int>, c: Ctx)
    requires c.steps + 1 + |xs| <= env.maxSteps
    ensures Eval(env, ListLit(Numbers(xs)), c)
         == Got(List(|c.heap|), Holding(After(c, 1 + |xs|), Items(IntValues(xs))))
  {
    assert Tick(env, c) == Got((), After(c, 1));
    AllNumbers(env, xs, After(c, 1));
    hide EvalAll, Debt, Credit;
  }

  /** A loop over what an expression gives. */
  lemma ForGives(env: Env, x: string, e: Expr, body: seq<Stmt>, c: Ctx, v: Value, d: Ctx)
    requires c.steps < env.maxSteps && Eval(env, e, After(c, 1)) == Got(v, d)
    ensures Exec(env, ForStmt(x, e, body), c) == Loop(env, x, ToWalk(env.py, v, d.heap), 0, body, d)
  {
    hide Eval, Loop, Debt, Credit;
    assert Tick(env, c) == Got((), After(c, 1));
  }

  /** One turn of a loop. */
  lemma Turn(env: Env, x: string, walk: Walk, i: nat, body: seq<Stmt>, c: Ctx)
    requires i < |Walked(walk, c.heap)| && c.steps < env.maxSteps
    ensures Loop(env, x, walk, i, body, c) ==
      var r := Block(env, body, With(After(c, 1), x, Walked(walk, c.heap)[i]));
      if r.Got? && r.value.Next? then Loop(env, x, walk, i + 1, body, r.ctx) else r
  {
    hide Block, Debt, Credit;
    assert Tick(env, c) == Got((), After(c, 1));
  }

  lemma LastTurn(env: Env, x: string, walk: Walk, i: nat, body: seq<Stmt>, c: Ctx)
    requires i >= |Walked(walk, c.heap)|
    ensures Loop(env, x, walk, i, body, c) == Got(Next, c)
  {
  }

  // ----- values of every kind -----

  lemma VariableGives(env: Env, x: string, c: Ctx)
    requires c.steps < env.maxSteps && x in c.scope
    ensures Eval(env, VarRef(x), c) == Got(c.scope[x], After(c, 1))
  {
    hide Debt, Credit;
    assert Tick(env, c) == Got((), After(c, 1));
  }

  lemma TextGives(env: Env, s: string, c: Ctx)
    requires c.steps < env.maxSteps && NoMarks(s)
    ensures Eval(env, StringLit(s), c) == Got(Str(s), After(c, 1))
  {
    TextStays(env.py, s, c.scope, c.heap);
    hide Debt, Credit, Interpolate;
    assert Tick(env, c) == Got((), After(c, 1));
  }

  lemma IndexGives(env: Env, o: Expr, i: Expr, c: Ctx, a: Value, d: Ctx, b: Value, e: Ctx)
    requires c.steps < env.maxSteps && Eval(env, o, After(c, 1)) == Got(a, d) && Eval(env, i, d) == Got(b, e)
    ensures Eval(env, IndexExpr(o, i), c) == Settle(Index(env.py, a, b, e.heap), e)
  {
    hide Eval, EvalAll, Index, Debt, Credit, Tick;
    IndexSteps(env, o, i, c);
    AllOfTwo(env, o, i, After(c, 1));
  }

  /** An assignment to an indexed place. */
  lemma StoreGives(env: Env, o: Expr, i: Expr, e: Expr, c: Ctx, v: Value, d: Ctx, a: Value, f: Ctx, b: Value, g: Ctx)
    requires c.steps < env.maxSteps && Eval(env, e, After(c, 1)) == Got(v, d)
    requires Eval(env, o, d) == Got(a, f) && Eval(env, i, f) == Got(b, g)
    ensures Exec(env, AssignStmt(IndexExpr(o, i), e), c) ==
      match IndexAssign(env.py, a, b, v, g.heap) case Gives(h) => Got(Next, g.(heap := h)) case Fails(x) => Raised(x, g)
  {
    hide Eval, EvalAll, IndexAssign, Debt, Credit;
    assert Tick(env, c) == Got((), After(c, 1));
    AllOfTwo(env, o, i, d);
    assert ExecAssign(env, IndexExpr(o, i), e, After(c, 1)) == AssignTo(env, IndexExpr(o, i), v, d);
    assert AssignTo(env, IndexExpr(o, i), v, d) == ExecStore(env, o, i, v, d);
  }

  // ----- errors and imports -----

  lemma LetRaises(env: Env, x: string, e: Expr, c: Ctx, f: Fault, d: Ctx)
    requires c.steps < env.maxSteps && Eval(env, e, After(c, 1)) == Raised(f, d)
    ensures Exec(env, LetStmt(x, e), c) == Raised(f, d)
  {
    hide Eval, Debt, Credit;
    assert Tick(env, c) == Got((), After(c, 1));
  }

  /** What a block ends with is what the `try` around it ends with, unless it is a script's or a builtin's
      error: then the handler runs, with the message in its variable. */
  lemma TryGoes(env: Env, body: seq<Stmt>, x: string, handler: seq<Stmt>, c: Ctx)
    requires c.steps < env.maxSteps
    ensures var r := Block(env, body, After(c, 1));
      && (r.Got? || r.fault.OtherFault? ==> Exec(env, TryCatch(body, x, handler), c) == r)
      && (r.Raised? && (r.fault.ScriptFault? || r.fault.BuiltinFault?) ==>
            Exec(env, TryCatch(body, x, handler), c) == Block(env, handler, With(r.ctx, x, Str(r.fault.text))))
  {
    hide Block, Debt, Credit;
    assert Tick(env, c) == Got((), After(c, 1));
    var r := Block(env, body, After(c, 1));
    if r.Raised? && !r.fault.StepLimit? && !r.fault.OtherFault? {
      assert Caught(x, r.fault, r.ctx) == With(r.ctx, x, Str(r.fault.text));
    }
  }

  lemma ImportGoes(env: Env, path: string, c: Ctx)
    requires c.steps < env.maxSteps
    ensures path in c.imported ==> Exec(env, ImportStmt(path), c) == Got(Next, After(c, 1))
    ensures path !in c.imported && env.load(path, c.journal).Loaded? ==>
      Exec(env, ImportStmt(path), c)
        == Block(env, env.load(path, c.journal).program, After(c, 1).(imported := c.imported + {path}))
  {
    hide Block, Debt, Credit;
    assert Tick(env, c) == Got((), After(c, 1));
  }

  // ----- pipelines -----

  lemma PipeGoes(env: Env, first: Command, rest: seq<Command>, stdin: Value, c: Ctx, v: Value, d: Ctx)
    requires RunCommand(env, first, stdin, c) == Got(v, d)
    ensures Pipeline(env, [first] + rest, stdin, c) == Pipeline(env, rest, v, d)
  {
    hide RunCommand, Debt, Credit;
    assert ([first] + rest)[1..] == rest;
  }

  lemma PipeEnds(env: Env, stdin: Value, c: Ctx)
    ensures Pipeline(env, [], stdin, c) == Got(stdin, c)
  {
  }

  /** A function as a command without arguments: what is piped in is its variable. */
  lemma CommandReturns(env: Env, name: string, fn: Fn, stdin: Value, c: Ctx, v: Value, k: nat)
    requires name != CALL && name !in env.builtins && name in c.functions && c.functions[name] == fn && fn.params == []
    requires c.steps < env.maxSteps && c.depth < env.maxDepth
    requires var scope := if stdin.Null? then c.scope else c.scope[STDIN := stdin];
      var inner := After(c, 1).(depth := c.depth + 1, scope := scope);
      Block(env, fn.body, inner) == Got(Return(v), After(inner, k))
    ensures RunCommand(env, Command(name, []), stdin, c) == Got(v, After(c, 1 + k))
  {
    hide Block, Debt, Credit, EvalAll;
    assert Tick(env, c) == Got((), After(c, 1));
    NoValues(env, After(c, 1));
    assert Bind(c.scope, [], []) == c.scope;
    assert CallUser(env, fn, [], stdin, After(c, 1)) == Got(v, After(c, 1 + k));
    hide CallUser;
    assert RunCommand(env, Command(name, []), stdin, c) == Dispatch(env, name, [], stdin, After(c, 1));
  }

  lemma NoValues(env: Env, c: Ctx)
    ensures EvalAll(env, [], c) == Got([], c)
  {
  }

  /** A pipeline as a statement: a text that is not empty is printed. */
  lemma PipelinePrints(env: Env, commands: seq<Command>, c: Ctx, s: string, d: Ctx)
    requires c.steps + 1 < env.maxSteps && Pipeline(env, commands, Null, After(c, 2)) == Got(Str(s), d)
    ensures Exec(env, ExprStmt(PipelineExpr(commands)), c)
         == Got(Next, if s == "" then d else d.(output := d.output + [s]))
  {
    hide Pipeline, Debt, Credit;
    assert Tick(env, c) == Got((), After(c, 1));
    assert Tick(env, After(c, 1)) == Got((), After(c, 2));
    assert Eval(env, PipelineExpr(commands), After(c, 1)) == Got(Str(s), d);
  }

  // ----- from a large limit to every limit -----

  /** A program that takes `k` steps under some limit that allows them takes `k` steps under every limit
      that allows them, with the same outcome, and stays within no other limit. */
  lemma SameWithin(env: Env, program: seq<Stmt>, k: nat)
    requires var big := Limited(env, env.maxSteps + k); Run(big, program).ctx.steps == k
    ensures Run(env, program).ctx.steps <= env.maxSteps <==> k <= env.maxSteps
    ensures k <= env.maxSteps ==> Run(env, program) == Run(Limited(env, env.maxSteps + k), program)
  {
    LargerBudgetChangesNothing(env, env.maxSteps + k, program);
    hide Run;
  }

  /** A run that stays within its limit is the run under any larger one. */
  lemma SameBeyond(env: Env, program: seq<Stmt>, m: nat)
    requires Run(env, program).ctx.steps <= env.maxSteps
    ensures Run(Limited(env, env.maxSteps + m), program) == Run(env, program)
  {
    hide *;
    LargerBudgetChangesNothing(env, env.maxSteps + m, program);
  }
}
