/** What whole programs compute, for all inputs and under every limit they stay within. */
module Programs {
  import opened Wrappers
  import opened Syntax
  import opened Values
  import opened Interpretation
  import opened Evaluation
  import opened Fuel

  function Lit(n: int): Expr { NumberLit(Int(n)) }

  function IntValue(n: int): Value { Number(Int(n)) }

  /** The run ends by itself, with a variable set. */
  predicate EndsWith(r: Out<Flow>, x: string, v: Value) {
    r.Got? && r.value.Next? && x in r.ctx.scope && r.ctx.scope[x] == v
  }

  // ----- recursion -----

  /** One for every number up to one. */
  function Factorial(n: int): int
    decreases if n > 1 then n else 0
  {
    if n <= 1 then 1 else n * Factorial(n - 1)
  }

  const N := VarRef("n")

  /** `if $n <= 1 { return 1 } return $n * fact($n - 1)` */
  function FactBody(): seq<Stmt> {
    [IfStmt(BinOp(N, LeOp, Lit(1)), [ReturnStmt(Some(Lit(1)))], [], NoElse), ReturnStmt(Some(FactStep()))]
  }

  function FactStep(): Expr {
    BinOp(N, MulOp, FnCallExpr("fact", [BinOp(N, SubOp, Lit(1))]))
  }

  function Fact(): Fn {
    Fn("fact", ["n"], FactBody())
  }

  /** `fn fact(n) { .. }` and `let r = fact(n)`. */
  function FactProgram(n: int): seq<Stmt> {
    [FnDef("fact", ["n"], FactBody()), LetStmt("r", FnCallExpr("fact", [Lit(n)]))]
  }

  function FactCost(n: int): nat
    decreases if n > 1 then n else 0
  {
    if n <= 1 then 6 else 11 + FactCost(n - 1)
  }

  /** Calls within a call for `n`. */
  function FactDepth(n: int): nat {
    if n <= 1 then 0 else n - 1
  }

  /** `$n <= 1` */
  function FactTest(): Expr {
    BinOp(N, LeOp, Lit(1))
  }

  lemma TestMeans(n: int, scope: Scope)
    requires "n" in scope && scope["n"] == IntValue(n)
    ensures Meaning(FactTest(), scope) == Some(B(n <= 1)) && Cost(FactTest(), scope) == 3
    ensures Meaning(Lit(1), scope) == Some(I(1)) && Cost(Lit(1), scope) == 1
    ensures Meaning(BinOp(N, SubOp, Lit(1)), scope) == Some(I(n - 1)) && Cost(BinOp(N, SubOp, Lit(1)), scope) == 3
    ensures Meaning(N, scope) == Some(I(n)) && Cost(N, scope) == 1
  {
  }

  /** An `if` with one test and no `else`. */
  lemma OneTest(env: Env, test: Expr, body: seq<Stmt>, c: Ctx, b: bool)
    requires Meaning(test, c.scope) == Some(B(b)) && c.steps + 1 + Cost(test, c.scope) <= env.maxSteps
    ensures Exec(env, IfStmt(test, body, [], NoElse), c)
         == Block(env, if b then body else [], After(c, 1 + Cost(test, c.scope)))
  {
    FirstChoiceIs(test, body, c.scope, b, Cost(test, c.scope));
    hide *;
    PlainIf(env, test, body, [], NoElse, c);
  }

  lemma FirstChoiceIs(test: Expr, body: seq<Stmt>, scope: Scope, b: bool, k: nat)
    requires Meaning(test, scope) == Some(B(b)) && Cost(test, scope) == k
    ensures var tests := [Elif(test, body)] + [];
      && TestsArePlain(tests, scope)
      && Chosen(tests, NoElse, scope) == (if b then body else []) && ChoiceCost(tests, scope) == k
  {
    var tests := [Elif(test, body)] + [];
    assert tests[0] == Elif(test, body) && tests[1..] == [];
    hide Meaning, Cost;
  }

  lemma RunsAsBlock(env: Env, program: seq<Stmt>)
    ensures Run(env, program) == Block(env, program, START)
  {
  }

  lemma OnlyOne(env: Env, s: Stmt, c: Ctx)
    ensures Block(env, [s], c) == Exec(env, s, c)
  {
    hide Exec;
    InOrder(env, s, [], c);
    assert [s] + [] == [s];
    var r := Exec(env, s, c);
    if r.Got? { NothingToDo(env, r.ctx); }
  }

  lemma FactParts()
    ensures FactBody()
         == [IfStmt(FactTest(), [ReturnStmt(Some(Lit(1)))], [], NoElse)] + [ReturnStmt(Some(FactStep()))]
    ensures ValueOf(I(1)) == IntValue(1)
  {
  }

  /** The first statement of the body: it returns one, or goes on. */
  lemma FactBegins(env: Env, n: int, c: Ctx)
    requires "n" in c.scope && c.scope["n"] == IntValue(n) && c.steps + (if n <= 1 then 6 else 4) <= env.maxSteps
    ensures Block(env, FactBody(), c)
         == if n <= 1 then Got(Return(IntValue(1)), After(c, 6))
            else Exec(env, ReturnStmt(Some(FactStep())), After(c, 4))
  {
    hide *;
    var one, last := ReturnStmt(Some(Lit(1))), ReturnStmt(Some(FactStep()));
    var test := IfStmt(FactTest(), [one], [], NoElse);
    FactParts();
    TestMeans(n, c.scope);
    OneTest(env, FactTest(), [one], c, n <= 1);
    InOrder(env, test, [last], c);
    AfterTwice(c, 4, 2);
    if n <= 1 {
      TestMeans(n, After(c, 4).scope);
      PlainReturn(env, Lit(1), After(c, 4));
      OnlyOne(env, one, After(c, 4));
    } else {
      NothingToDo(env, After(c, 4));
      OnlyOne(env, last, After(c, 4));
    }
  }

  lemma {:induction false} FactReturns(env: Env, n: int, c: Ctx)
    requires "n" in c.scope && c.scope["n"] == IntValue(n)
    requires "fact" in c.functions && c.functions["fact"] == Fact()
    requires c.depth + FactDepth(n) <= env.maxDepth && c.steps + FactCost(n) <= env.maxSteps
    ensures Block(env, FactBody(), c) == Got(Return(IntValue(Factorial(n))), After(c, FactCost(n)))
    decreases if n > 1 then n else 0
  {
    FactBegins(env, n, c);
    if n > 1 {
      var k := FactCost(n - 1);
      var inner := With(After(c, 11), "n", IntValue(n - 1)).(depth := c.depth + 1);
      FactReturns(env, n - 1, inner);
      FactGoesOn(env, n, c, Factorial(n - 1), k);
    }
    hide Exec, Block, FactBody;
  }

  lemma FactFacts()
    ensures "fact" !in UTILITIES && |Fact().params| == 1 && Fact().params[0] == "n" && Fact().body == FactBody()
    ensures FactStep() == BinOp(N, MulOp, FnCallExpr("fact", [BinOp(N, SubOp, Lit(1))]))
  {
  }

  lemma Integers(n: int, m: int)
    ensures ValueOf(I(n)) == IntValue(n) && ValueOf(I(n - 1)) == IntValue(n - 1)
    ensures ValueOf(I(m)) == IntValue(m) && ValueOf(I(n * m)) == IntValue(n * m)
    ensures Operation(MulOp, I(n), I(m)) == Some(I(n * m))
  {
  }

  lemma LitMeans(n: int, scope: Scope)
    ensures Meaning(Lit(n), scope) == Some(I(n)) && Cost(Lit(n), scope) == 1
  {
  }

  lemma WithSets(c: Ctx, x: string, v: Value)
    ensures x in With(c, x, v).scope && With(c, x, v).scope[x] == v
    ensures With(c, x, v) == c.(scope := With(c, x, v).scope)
  {
  }

  /** `return $n * fact($n - 1)` when the inner call gives `m` in `k` steps. */
  lemma FactGoesOn(env: Env, n: int, c: Ctx, m: int, k: nat)
    requires "n" in c.scope && c.scope["n"] == IntValue(n)
    requires "fact" in c.functions && c.functions["fact"] == Fact()
    requires c.depth < env.maxDepth && c.steps + 11 + k <= env.maxSteps
    requires var inner := With(After(c, 11), "n", IntValue(n - 1)).(depth := c.depth + 1);
      Block(env, FactBody(), inner) == Got(Return(IntValue(m)), After(inner, k))
    ensures Exec(env, ReturnStmt(Some(FactStep())), After(c, 4)) == Got(Return(IntValue(n * m)), After(c, 11 + k))
  {
    hide *;
    var arg, call := BinOp(N, SubOp, Lit(1)), FnCallExpr("fact", [BinOp(N, SubOp, Lit(1))]);
    var d := After(c, 7);
    FactFacts();
    Integers(n, m);
    TestMeans(n, c.scope);
    AfterTwice(c, 4, 1);
    AfterTwice(c, 5, 1);
    AfterTwice(c, 6, 1);
    AfterTwice(c, 7, 4);
    AfterTwice(c, 7, 4 + k);
    ExpressionsMeanTheirMathematics(env, N, After(c, 6));
    CallReturns(env, "fact", Fact(), arg, d, IntValue(m), k);
    OperatorGives(env, N, MulOp, call, After(c, 5), I(n), d, I(m), After(c, 11 + k));
    ReturnGives(env, FactStep(), After(c, 4), IntValue(n * m), After(c, 11 + k));
  }

  /** The call for `n` returns its factorial, whatever else is defined. */
  lemma FactCalled(env: Env, n: int, c: Ctx)
    requires "fact" in c.functions && c.functions["fact"] == Fact()
    requires c.depth + FactDepth(n) < env.maxDepth && c.steps + 2 + FactCost(n) <= env.maxSteps
    ensures Eval(env, FnCallExpr("fact", [Lit(n)]), c) == Got(IntValue(Factorial(n)), After(c, 2 + FactCost(n)))
  {
    hide *;
    var inner := With(After(c, 2), "n", IntValue(n)).(depth := c.depth + 1);
    FactFacts();
    Integers(n, 1);
    LitMeans(n, c.scope);
    AfterTwice(c, 2, 0);
    WithSets(After(c, 2), "n", IntValue(n));
    FactReturns(env, n, inner);
    CallReturns(env, "fact", Fact(), Lit(n), c, IntValue(Factorial(n)), FactCost(n));
  }

  lemma FactRuns(env: Env, n: int)
    requires FactDepth(n) < env.maxDepth && FactCost(n) + 4 <= env.maxSteps
    ensures var r := Run(env, FactProgram(n));
      r.ctx.steps == FactCost(n) + 4 && EndsWith(r, "r", IntValue(Factorial(n)))
  {
    var define, call := FnDef("fact", ["n"], FactBody()), FnCallExpr("fact", [Lit(n)]);
    var c := START.(steps := 1, functions := map["fact" := Fact()]);
    assert Exec(env, define, START) == Got(Next, c) by { hide FactBody; }
    assert FactProgram(n) == [define] + [LetStmt("r", call)];
    hide FactBody, Exec, Eval, FactProgram;
    FactCalled(env, n, After(c, 1));
    LetGives(env, "r", call, c, IntValue(Factorial(n)), After(c, 3 + FactCost(n)));
    InOrder(env, define, [LetStmt("r", call)], START);
    OnlyOne(env, LetStmt("r", call), c);
  }

  /** The recursive factorial computes the factorial: under every limit the run stays within, which are
      exactly those of at least eleven steps for each number above one and ten more. */
  lemma FactorialIsComputed(env: Env, n: int)
    requires FactDepth(n) < env.maxDepth
    ensures var r := Run(env, FactProgram(n));
      && (r.ctx.steps <= env.maxSteps <==> 10 + 11 * FactDepth(n) <= env.maxSteps)
      && (r.ctx.steps <= env.maxSteps ==> EndsWith(r, "r", IntValue(Factorial(n))))
  {
    var k := FactCost(n) + 4;
    FactRuns(Limited(env, env.maxSteps + k), n);
    SameWithin(env, FactProgram(n), k);
    FactCostIs(n);
    hide Run, FactProgram, EndsWith;
  }

  lemma {:induction false} FactCostIs(n: int)
    ensures FactCost(n) == 6 + 11 * FactDepth(n)
    decreases if n > 1 then n else 0
  {
    if n > 1 { FactCostIs(n - 1); }
  }

  /** What is raised when calls are nested deeper than allowed. */
  function TooDeep(env: Env): Fault {
    ScriptFault("Max call depth exceeded (" + Digits(env.maxDepth) + ")")
  }

  lemma CallTooDeep(env: Env, n: int, c: Ctx)
    requires "fact" in c.functions && c.functions["fact"] == Fact() && "n" in c.scope && c.scope["n"] == IntValue(n)
    requires c.depth >= env.maxDepth && c.steps + 4 <= env.maxSteps
    ensures var r := Eval(env, FnCallExpr("fact", [BinOp(N, SubOp, Lit(1))]), c);
      r.Raised? && r.fault == TooDeep(env) && r.ctx.steps == c.steps + 4
  {
    var arg := BinOp(N, SubOp, Lit(1));
    TestMeans(n, c.scope);
    FactFacts();
    hide Eval, EvalAll, Meaning, Cost, Debt, Credit, Fact, Bind;
    ExpressionsMeanTheirMathematics(env, arg, After(c, 1));
    AllOfOne(env, arg, After(c, 1));
    CallGoes(env, "fact", Fact(), [arg], c, [IntValue(n - 1)], After(c, 4));
    assert CallUser(env, Fact(), [IntValue(n - 1)], Null, After(c, 4)) == Raised(TooDeep(env), After(c, 4)) by {
      hide Block;
    }
  }

  /** An error in the inner call is the error of the whole. */
  lemma FactPassesOn(env: Env, n: int, c: Ctx, f: Fault, d: Ctx)
    requires "n" in c.scope && c.scope["n"] == IntValue(n) && c.steps + 3 <= env.maxSteps
    requires Eval(env, FnCallExpr("fact", [BinOp(N, SubOp, Lit(1))]), After(c, 3)) == Raised(f, d)
    ensures Exec(env, ReturnStmt(Some(FactStep())), c) == Raised(f, d)
  {
    hide *;
    var call := FnCallExpr("fact", [BinOp(N, SubOp, Lit(1))]);
    TestMeans(n, c.scope);
    FactFacts();
    Integers(n, n);
    AfterTwice(c, 1, 1);
    AfterTwice(c, 2, 1);
    ExpressionsMeanTheirMathematics(env, N, After(c, 2));
    OperandRaises(env, N, MulOp, call, After(c, 1), IntValue(n), After(c, 3), f, d);
    ReturnRaises(env, FactStep(), c, f, d);
  }

  lemma {:induction false} FactFails(env: Env, n: int, c: Ctx)
    requires "n" in c.scope && c.scope["n"] == IntValue(n)
    requires "fact" in c.functions && c.functions["fact"] == Fact()
    requires c.depth <= env.maxDepth < c.depth + FactDepth(n) && c.steps + FactCost(n) <= env.maxSteps
    ensures var r := Block(env, FactBody(), c);
      r.Raised? && r.fault == TooDeep(env) && r.ctx.steps <= c.steps + FactCost(n)
    decreases if n > 1 then n else 0
  {
    hide Exec, Eval, Block, FactBody, Debt, Credit, Meaning, Cost;
    FactBegins(env, n, c);
    var d := After(c, 7);
    if c.depth == env.maxDepth {
      CallTooDeep(env, n, d);
    } else {
      FactFails(env, n - 1, With(After(d, 4), "n", IntValue(n - 1)).(depth := c.depth + 1));
      CallFails(env, n, d);
    }
    var r := Eval(env, FnCallExpr("fact", [BinOp(N, SubOp, Lit(1))]), d);
    FactPassesOn(env, n, After(c, 4), r.fault, r.ctx);
  }

  lemma CallFails(env: Env, n: int, c: Ctx)
    requires "fact" in c.functions && c.functions["fact"] == Fact() && "n" in c.scope && c.scope["n"] == IntValue(n)
    requires c.depth < env.maxDepth && c.steps + 4 <= env.maxSteps
    requires Block(env, FactBody(), With(After(c, 4), "n", IntValue(n - 1)).(depth := c.depth + 1)).Raised?
    ensures var b := Block(env, FactBody(), With(After(c, 4), "n", IntValue(n - 1)).(depth := c.depth + 1));
      var r := Eval(env, FnCallExpr("fact", [BinOp(N, SubOp, Lit(1))]), c);
      r.Raised? && r.fault == b.fault && r.ctx.steps == b.ctx.steps
  {
    hide *;
    var arg := BinOp(N, SubOp, Lit(1));
    var d := After(c, 4);
    TestMeans(n, c.scope);
    FactFacts();
    Integers(n, n);
    AfterTwice(c, 1, 3);
    AfterTwice(c, 4, 0);
    BindOne(d.scope, Fact().params, IntValue(n - 1));
    ExpressionsMeanTheirMathematics(env, arg, After(c, 1));
    AllOfOne(env, arg, After(c, 1));
    CallGoes(env, "fact", Fact(), [arg], c, [IntValue(n - 1)], d);
    ScopeIs(d, "n", IntValue(n - 1));
    CallRaises(env, Fact(), [IntValue(n - 1)], d);
  }

  lemma ScopeIs(c: Ctx, x: string, v: Value)
    ensures With(c, x, v).(depth := c.depth + 1) == c.(depth := c.depth + 1, scope := c.scope[x := v])
  {
  }

  lemma DeeperFacts(c: Ctx, n: int)
    ensures var inner := With(After(c, 3), "n", IntValue(n)).(depth := 1);
      && "n" in inner.scope && inner.scope["n"] == IntValue(n) && inner.depth == 1
      && inner.functions == c.functions && inner.steps == c.steps + 3 && After(c, 3).depth == c.depth
      && inner == After(c, 3).(depth := 1, scope := After(c, 3).scope["n" := IntValue(n)])
  {
  }

  lemma FactDefined(env: Env, n: int)
    requires 0 < env.maxSteps
    ensures var define := FnDef("fact", ["n"], FactBody());
      && Exec(env, define, START) == Got(Next, START.(steps := 1, functions := map["fact" := Fact()]))
      && FactProgram(n) == [define] + [LetStmt("r", FnCallExpr("fact", [Lit(n)]))]
      && Fact().params == ["n"]
      && START.steps == 0 && START.depth == 0
  {
    hide FactBody;
  }

  lemma FactRunFails(env: Env, n: int)
    requires 0 < env.maxDepth <= FactDepth(n) && FactCost(n) + 4 <= env.maxSteps
    ensures var r := Run(env, FactProgram(n)); r.Raised? && r.fault == TooDeep(env)
  {
    hide *;
    var define, call := FnDef("fact", ["n"], FactBody()), FnCallExpr("fact", [Lit(n)]);
    var c := START.(steps := 1, functions := map["fact" := Fact()]);
    var e := After(c, 3);
    var inner := With(e, "n", IntValue(n)).(depth := 1);
    FactDefined(env, n);
    FactFacts();
    LitMeans(n, c.scope);
    Integers(n, n);
    AfterTwice(c, 1, 1);
    AfterTwice(c, 2, 1);
    DeeperFacts(c, n);
    FactFails(env, n, inner);
    BindOne(e.scope, ["n"], IntValue(n));
    ExpressionsMeanTheirMathematics(env, Lit(n), After(c, 2));
    AllOfOne(env, Lit(n), After(c, 2));
    CallGoes(env, "fact", Fact(), [Lit(n)], After(c, 1), [IntValue(n)], e);
    CallRaises(env, Fact(), [IntValue(n)], e);
    RunsAsBlock(env, FactProgram(n));
    var r := Eval(env, call, After(c, 1));
    LetRaises(env, "r", call, c, r.fault, r.ctx);
    InOrder(env, define, [LetStmt("r", call)], START);
    OnlyOne(env, LetStmt("r", call), c);
  }

  /** Where the calls are too deep, the run ends with that error. */
  lemma DeepFactorialFails(env: Env, n: int)
    requires 0 < env.maxDepth <= FactDepth(n) && Run(env, FactProgram(n)).ctx.steps <= env.maxSteps
    ensures var r := Run(env, FactProgram(n)); r.Raised? && r.fault == TooDeep(env)
  {
    var k := FactCost(n) + 4;
    assert TooDeep(Limited(env, env.maxSteps + k)) == TooDeep(env);
    SameBeyond(env, FactProgram(n), k);
    FactRunFails(Limited(env, env.maxSteps + k), n);
    hide Run, FactProgram, FactCost, TooDeep;
  }

  // ----- loops -----

  function Sum(xs: seq<int>): int {
    if xs == [] then 0 else Sum(xs[..|xs| - 1]) + xs[|xs| - 1]
  }

  /** `$s + $x` */
  const ADD := BinOp(VarRef("s"), AddOp, VarRef("x"))

  /** `s = $s + $x` */
  const ADDING := AssignStmt(VarRef("s"), ADD)

  /** `let s = 0` and `for x in [..] { s = $s + $x }`. */
  function SumProgram(xs: seq<int>): seq<Stmt> {
    [LetStmt("s", Lit(0)), ForStmt("x", ListLit(Numbers(xs)), [ADDING])]
  }

  lemma AddMeans(a: int, b: int, scope: Scope)
    requires "s" in scope && scope["s"] == IntValue(a) && "x" in scope && scope["x"] == IntValue(b)
    ensures Meaning(ADD, scope) == Some(I(a + b)) && Cost(ADD, scope) == 3 && ValueOf(I(a + b)) == IntValue(a + b)
  {
  }

  /** The context holds the list, and the sum of its first `i` items. */
  predicate Summing(c: Ctx, ref: nat, xs: seq<int>, i: nat) {
    && ref < |c.heap| && c.heap[ref] == Items(IntValues(xs))
    && i <= |xs| && "s" in c.scope && c.scope["s"] == IntValue(Sum(xs[..i]))
  }

  lemma SumTurn(env: Env, ref: nat, xs: seq<int>, i: nat, c: Ctx)
    requires Summing(c, ref, xs, i) && i < |xs| && c.steps + 5 <= env.maxSteps
    ensures var r := Block(env, [ADDING], With(After(c, 1), "x", IntValue(xs[i])));
      r.Got? && r.value.Next? && Summing(r.ctx, ref, xs, i + 1) && r.ctx.steps == c.steps + 5
  {
    hide Exec, Block, Meaning, Cost;
    var d := With(After(c, 1), "x", IntValue(xs[i]));
    assert xs[..i + 1][..i] == xs[..i];
    AddMeans(Sum(xs[..i]), xs[i], d.scope);
    PlainAssign(env, "s", ADD, d);
    OnlyOne(env, ADDING, d);
  }

  lemma {:induction false} LoopSums(env: Env, ref: nat, xs: seq<int>, i: nat, c: Ctx)
    requires Summing(c, ref, xs, i) && c.steps + 5 * (|xs| - i) <= env.maxSteps
    ensures var r := Loop(env, "x", Live(ref), i, [ADDING], c);
      && r.Got? && r.value.Next? && Summing(r.ctx, ref, xs, |xs|) && r.ctx.steps == c.steps + 5 * (|xs| - i)
    decreases |xs| - i
  {
    hide Block, Loop;
    if i < |xs| {
      SumTurn(env, ref, xs, i, c);
      Turn(env, "x", Live(ref), i, [ADDING], c);
      LoopSums(env, ref, xs, i + 1, Block(env, [ADDING], With(After(c, 1), "x", IntValue(xs[i]))).ctx);
    } else {
      LastTurn(env, "x", Live(ref), i, [ADDING], c);
    }
  }

  lemma SumRuns(env: Env, xs: seq<int>)
    requires 4 + 6 * |xs| <= env.maxSteps
    ensures var r := Run(env, SumProgram(xs)); r.ctx.steps == 4 + 6 * |xs| && EndsWith(r, "s", IntValue(Sum(xs)))
  {
    hide *;
    var first, loop := LetStmt("s", Lit(0)), ForStmt("x", ListLit(Numbers(xs)), [ADDING]);
    var c := With(After(START, 2), "s", IntValue(0));
    var d := Holding(After(c, 2 + |xs|), Items(IntValues(xs)));
    SumParts(xs);
    LitMeans(0, START.scope);
    Integers(0, 0);
    AfterTwice(c, 1, 1 + |xs|);
    PlainLet(env, "s", Lit(0), START);
    InOrder(env, first, [loop], START);
    OnlyOne(env, loop, c);
    ListGives(env, xs, After(c, 1));
    ForGives(env, "x", ListLit(Numbers(xs)), [ADDING], c, List(0), d);
    LoopSums(env, 0, xs, 0, d);
    assert ToWalk(env.py, List(0), d.heap) == Live(0) by { WalksList(env.py, 0, d.heap); }
    SumEnds(Run(env, SumProgram(xs)), 0, xs);
  }

  lemma WalksList(py: Runtime, ref: nat, heap: Heap)
    ensures ToWalk(py, List(ref), heap) == Live(ref)
  {
  }

  lemma SumParts(xs: seq<int>)
    ensures SumProgram(xs) == [LetStmt("s", Lit(0))] + [ForStmt("x", ListLit(Numbers(xs)), [ADDING])]
    ensures START.steps == 0
    ensures var c := With(After(START, 2), "s", IntValue(0));
      var d := Holding(After(c, 2 + |xs|), Items(IntValues(xs)));
      && c.steps == 2 && |After(c, 1).heap| == 0 && d.steps == 4 + |xs| && Summing(d, 0, xs, 0)
    ensures forall env :: Run(env, SumProgram(xs)) == Block(env, SumProgram(xs), START)
  {
    assert xs[..0] == [];
    hide Block;
  }

  lemma SumEnds(r: Out<Flow>, ref: nat, xs: seq<int>)
    requires r.Got? && r.value.Next? && Summing(r.ctx, ref, xs, |xs|)
    ensures EndsWith(r, "s", IntValue(Sum(xs)))
  {
    assert xs[..|xs|] == xs;
  }

  /** A loop over a list adds up its items, under every limit the run stays within. */
  lemma SumIsComputed(env: Env, xs: seq<int>)
    ensures var r := Run(env, SumProgram(xs));
      && (r.ctx.steps <= env.maxSteps <==> 4 + 6 * |xs| <= env.maxSteps)
      && (r.ctx.steps <= env.maxSteps ==> EndsWith(r, "s", IntValue(Sum(xs))))
  {
    var k := 4 + 6 * |xs|;
    SumRuns(Limited(env, env.maxSteps + k), xs);
    SameWithin(env, SumProgram(xs), k);
    hide Run, SumProgram, EndsWith;
  }

  // ----- choices -----

  /** Below `lo`, from `lo` to `hi` with or without zero, or above. */
  datatype Class = Below | Zero | Inside | Above

  function ClassOf(n: int, lo: int, hi: int): Class {
    if n < lo then Below else if n > hi then Above else if n == 0 then Zero else Inside
  }

  function Code(k: Class): int {
    match k case Below => 1 case Zero => 2 case Inside => 3 case Above => 4
  }

  function Mark(k: Class): seq<Stmt> {
    [LetStmt("k", Lit(Code(k)))]
  }

  /** `not ($n >= lo)` */
  function IsBelow(lo: int): Expr {
    UnaryOp(NotOp, BinOp(N, GeOp, Lit(lo)))
  }

  /** `$n == 0 and $n <= hi` */
  function IsZero(hi: int): Expr {
    BinOp(BinOp(N, EqOp, Lit(0)), AndOp, BinOp(N, LeOp, Lit(hi)))
  }

  /** `$n < hi or not ($n != hi)` */
  function IsInside(hi: int): Expr {
    BinOp(BinOp(N, LtOp, Lit(hi)), OrOp, UnaryOp(NotOp, BinOp(N, NeOp, Lit(hi))))
  }

  /** `let n = ..`, and then an `if` with two `elif`s and an `else`, each of which sets `k`. */
  function ClassProgram(n: int, lo: int, hi: int): seq<Stmt> {
    [LetStmt("n", Lit(n)), Choice(lo, hi)]
  }

  function Choice(lo: int, hi: int): Stmt {
    IfStmt(IsBelow(lo), Mark(Below), [Elif(IsZero(hi), Mark(Zero)), Elif(IsInside(hi), Mark(Inside))],
           Else(Mark(Above)))
  }

  function Tests(lo: int, hi: int): seq<Elif> {
    [Elif(IsBelow(lo), Mark(Below)), Elif(IsZero(hi), Mark(Zero)), Elif(IsInside(hi), Mark(Inside))]
  }

  lemma TestsMean(n: int, lo: int, hi: int, scope: Scope)
    requires "n" in scope && scope["n"] == IntValue(n)
    ensures Meaning(IsBelow(lo), scope) == Some(B(n < lo)) && Cost(IsBelow(lo), scope) == 4
    ensures Meaning(IsZero(hi), scope) == Some(B(n == 0 && n <= hi)) && Cost(IsZero(hi), scope) <= 7
    ensures Meaning(IsInside(hi), scope) == Some(B(n <= hi)) && Cost(IsInside(hi), scope) <= 8
  {
    hide *;
    CompareMeans(n, GeOp, lo, scope);
    CompareMeans(n, EqOp, 0, scope);
    CompareMeans(n, LeOp, hi, scope);
    CompareMeans(n, LtOp, hi, scope);
    CompareMeans(n, NeOp, hi, scope);
    ComparesAs(n, lo);
    ComparesAs(n, 0);
    ComparesAs(n, hi);
    TestsAre(lo, hi);
    NotMeans(BinOp(N, GeOp, Lit(lo)), n >= lo, scope);
    BothMean(BinOp(N, EqOp, Lit(0)), AndOp, BinOp(N, LeOp, Lit(hi)), n == 0, n <= hi, scope);
    NotMeans(BinOp(N, NeOp, Lit(hi)), n != hi, scope);
    BothMean(BinOp(N, LtOp, Lit(hi)), OrOp, UnaryOp(NotOp, BinOp(N, NeOp, Lit(hi))), n < hi, n == hi, scope);
  }

  lemma TestsAre(lo: int, hi: int)
    ensures IsBelow(lo) == UnaryOp(NotOp, BinOp(N, GeOp, Lit(lo)))
    ensures IsZero(hi) == BinOp(BinOp(N, EqOp, Lit(0)), AndOp, BinOp(N, LeOp, Lit(hi)))
    ensures IsInside(hi) == BinOp(BinOp(N, LtOp, Lit(hi)), OrOp, UnaryOp(NotOp, BinOp(N, NeOp, Lit(hi))))
  {
  }

  lemma ComparesAs(n: int, k: int)
    ensures Operation(GeOp, I(n), I(k)) == Some(B(n >= k)) && Operation(LeOp, I(n), I(k)) == Some(B(n <= k))
    ensures Operation(LtOp, I(n), I(k)) == Some(B(n < k))
    ensures Operation(EqOp, I(n), I(k)) == Some(B(n == k)) && Operation(NeOp, I(n), I(k)) == Some(B(n != k))
  {
  }

  lemma NotMeans(e: Expr, b: bool, scope: Scope)
    requires Meaning(e, scope) == Some(B(b))
    ensures Meaning(UnaryOp(NotOp, e), scope) == Some(B(!b)) && Cost(UnaryOp(NotOp, e), scope) == 1 + Cost(e, scope)
  {
  }

  lemma BothMean(l: Expr, op: BinaryOp, r: Expr, a: bool, b: bool, scope: Scope)
    requires op in {AndOp, OrOp} && Meaning(l, scope) == Some(B(a)) && Meaning(r, scope) == Some(B(b))
    ensures Meaning(BinOp(l, op, r), scope) == Some(B(if op == AndOp then a && b else a || b))
    ensures Cost(BinOp(l, op, r), scope) <= 1 + Cost(l, scope) + Cost(r, scope)
  {
  }

  lemma CompareMeans(n: int, op: BinaryOp, k: int, scope: Scope)
    requires op != AndOp && op != OrOp && "n" in scope && scope["n"] == IntValue(n)
    ensures var e := BinOp(N, op, Lit(k)); Meaning(e, scope) == Operation(op, I(n), I(k)) && Cost(e, scope) == 3
  {
  }

  lemma ChosenClass(n: int, lo: int, hi: int, scope: Scope)
    requires "n" in scope && scope["n"] == IntValue(n)
    ensures var tests := Tests(lo, hi);
      && TestsArePlain(tests, scope) && ChoiceCost(tests, scope) <= 19
      && Chosen(tests, Else(Mark(Above)), scope) == Mark(ClassOf(n, lo, hi))
  {
    hide *;
    var tests, els := Tests(lo, hi), Else(Mark(Above));
    TestsMean(n, lo, hi, scope);
    TestParts(n, lo, hi, scope);
    FirstOfTests(tests, els, scope, n < lo);
    FirstOfTests(tests[1..], els, scope, n == 0 && n <= hi);
    FirstOfTests(tests[2..], els, scope, n <= hi);
  }

  lemma TestParts(n: int, lo: int, hi: int, scope: Scope)
    requires Meaning(IsBelow(lo), scope) == Some(B(n < lo))
    requires Meaning(IsZero(hi), scope) == Some(B(n == 0 && n <= hi))
    requires Meaning(IsInside(hi), scope) == Some(B(n <= hi))
    ensures var tests := Tests(lo, hi);
      && |tests| == 3 && tests[1..][1..] == tests[2..] && tests[2..][1..] == []
      && tests[0] == Elif(IsBelow(lo), Mark(Below)) && tests[1..][0] == Elif(IsZero(hi), Mark(Zero))
      && tests[2..][0] == Elif(IsInside(hi), Mark(Inside)) && TestsArePlain(tests, scope)
    ensures Chosen([], Else(Mark(Above)), scope) == Mark(Above) && ChoiceCost([], scope) == 0
    ensures ClassOf(n, lo, hi)
         == if n < lo then Below else if n == 0 && n <= hi then Zero else if n <= hi then Inside else Above
  {
    hide Meaning, Cost, IsBelow, IsZero, IsInside, Mark;
  }

  lemma FirstOfTests(tests: seq<Elif>, els: Else, scope: Scope, b: bool)
    requires tests != [] && Meaning(tests[0].test, scope) == Some(B(b))
    ensures Chosen(tests, els, scope) == if b then tests[0].block else Chosen(tests[1..], els, scope)
    ensures ChoiceCost(tests, scope) == Cost(tests[0].test, scope) + if b then 0 else ChoiceCost(tests[1..], scope)
  {
  }

  lemma ClassRuns(env: Env, n: int, lo: int, hi: int)
    requires 24 <= env.maxSteps
    ensures var r := Run(env, ClassProgram(n, lo, hi));
      r.ctx.steps <= 24 && EndsWith(r, "k", IntValue(Code(ClassOf(n, lo, hi))))
  {
    hide *;
    ClassParts(n, lo, hi);
    var first, c := LetStmt("n", Lit(n)), With(After(START, 2), "n", IntValue(n));
    var right, rest := ClassOf(n, lo, hi), Tests(lo, hi)[1..];
    var k := ChoiceCost(Tests(lo, hi), c.scope);
    LitMeans(n, START.scope);
    LitMeans(Code(right), c.scope);
    Integers(n, Code(right));
    WithSets(After(START, 2), "n", IntValue(n));
    ChosenClass(n, lo, hi, c.scope);
    PlainLet(env, "n", Lit(n), START);
    InOrder(env, first, [Choice(lo, hi)], START);
    OnlyOne(env, Choice(lo, hi), c);
    PlainIf(env, IsBelow(lo), Mark(Below), rest, Else(Mark(Above)), c);
    var d := After(c, 1 + k);
    AfterTwice(c, 1 + k, 2);
    AfterTwice(d, 2, 0);
    PlainLet(env, "k", Lit(Code(right)), d);
    OnlyOne(env, LetStmt("k", Lit(Code(right))), d);
    WithEnds(Run(env, ClassProgram(n, lo, hi)), After(d, 2), "k", IntValue(Code(right)));
  }

  lemma WithEnds(r: Out<Flow>, c: Ctx, x: string, v: Value)
    requires r == Got(Next, With(c, x, v))
    ensures EndsWith(r, x, v) && r.ctx.steps == c.steps
  {
  }

  lemma ClassParts(n: int, lo: int, hi: int)
    ensures ClassProgram(n, lo, hi) == [LetStmt("n", Lit(n))] + [Choice(lo, hi)]
    ensures |Tests(lo, hi)| == 3 && Tests(lo, hi) == [Elif(IsBelow(lo), Mark(Below))] + Tests(lo, hi)[1..]
    ensures Choice(lo, hi) == IfStmt(IsBelow(lo), Mark(Below), Tests(lo, hi)[1..], Else(Mark(Above)))
    ensures START.steps == 0 && With(After(START, 2), "n", IntValue(n)).steps == 2
    ensures forall k :: Mark(k) == [LetStmt("k", Lit(Code(k)))]
    ensures forall env :: Run(env, ClassProgram(n, lo, hi)) == Block(env, ClassProgram(n, lo, hi), START)
  {
    hide Block, IsBelow, IsZero, IsInside, Code;
  }

  /** The branch that is taken is the one for the number's class. */
  lemma ClassIsComputed(env: Env, n: int, lo: int, hi: int)
    requires Run(env, ClassProgram(n, lo, hi)).ctx.steps <= env.maxSteps
    ensures EndsWith(Run(env, ClassProgram(n, lo, hi)), "k", IntValue(Code(ClassOf(n, lo, hi))))
  {
    SameBeyond(env, ClassProgram(n, lo, hi), 24);
    ClassRuns(Limited(env, env.maxSteps + 24), n, lo, hi);
    hide Run, ClassProgram, EndsWith;
  }
}
