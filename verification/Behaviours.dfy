/** What further whole programs do: loops that return, errors and their handlers, imports, shared lists,
    maps, scopes, names and pipelines. */
module Behaviours {
  import opened Wrappers
  import opened Syntax
  import opened Values
  import opened Interpretation
  import opened Evaluation
  import opened Marks
  import opened Programs
  import opened Fuel

  // ----- a loop that returns -----

  /** The first item above `k`, or null. */
  function FirstAbove(xs: seq<int>, k: int): Value {
    if xs == [] then Null else if xs[0] > k then IntValue(xs[0]) else FirstAbove(xs[1..], k)
  }

  const X := VarRef("x")

  /** `if $x > $k { return $x }` */
  function Looking(): Stmt {
    IfStmt(BinOp(X, GtOp, VarRef("k")), [ReturnStmt(Some(X))], [], NoElse)
  }

  function Find(xs: seq<int>): Fn {
    Fn("find", ["k"], [ForStmt("x", ListLit(Numbers(xs)), [Looking()])])
  }

  /** `fn find(k) { for x in [..] { if $x > $k { return $x } } }` and `let r = find(k)`. */
  function FindProgram(xs: seq<int>, k: int): seq<Stmt> {
    [FnDef("find", ["k"], Find(xs).body), LetStmt("r", FnCallExpr("find", [Lit(k)]))]
  }

  lemma LookingMeans(x: int, k: int, scope: Scope)
    requires "x" in scope && scope["x"] == IntValue(x) && "k" in scope && scope["k"] == IntValue(k)
    ensures var test := BinOp(X, GtOp, VarRef("k")); Meaning(test, scope) == Some(B(x > k)) && Cost(test, scope) == 3
    ensures Meaning(X, scope) == Some(I(x)) && Cost(X, scope) == 1
  {
  }

  lemma LookingTurn(env: Env, x: int, k: int, c: Ctx)
    requires "k" in c.scope && c.scope["k"] == IntValue(k) && c.steps + 7 <= env.maxSteps
    ensures var d := With(After(c, 1), "x", IntValue(x));
      Block(env, [Looking()], d)
        == if x > k then Got(Return(IntValue(x)), After(d, 6)) else Got(Next, After(d, 4))
  {
    var d := With(After(c, 1), "x", IntValue(x));
    LookingMeans(x, k, d.scope);
    assert ValueOf(I(x)) == IntValue(x) && After(d, 4).scope == d.scope && d.steps == c.steps + 1;
    assert Looking() == IfStmt(BinOp(X, GtOp, VarRef("k")), [ReturnStmt(Some(X))], [], NoElse);
    hide *;
    AfterTwice(d, 4, 2);
    OneTest(env, BinOp(X, GtOp, VarRef("k")), [ReturnStmt(Some(X))], d, x > k);
    OnlyOne(env, Looking(), d);
    if x > k {
      PlainReturn(env, X, After(d, 4));
      OnlyOne(env, ReturnStmt(Some(X)), After(d, 4));
    } else {
      NothingToDo(env, After(d, 4));
    }
  }

  /** What is left of the list has its first item above `k` returned, if it has one. */
  lemma {:induction false} LoopFinds(env: Env, ref: nat, xs: seq<int>, i: nat, k: int, c: Ctx)
    requires ref < |c.heap| && c.heap[ref] == Items(IntValues(xs)) && i <= |xs|
    requires "k" in c.scope && c.scope["k"] == IntValue(k) && c.steps + 7 * (|xs| - i) <= env.maxSteps
    ensures var r, v := Loop(env, "x", Live(ref), i, [Looking()], c), FirstAbove(xs[i..], k);
      && r.Got? && r.value == (if v.Null? then Next else Return(v))
      && r.ctx.steps <= c.steps + 7 * (|xs| - i) && r.ctx.depth == c.depth
    decreases |xs| - i
  {
    hide Block, Loop, Debt, Credit;
    if i < |xs| {
      assert xs[i..][0] == xs[i] && xs[i..][1..] == xs[i + 1..];
      Turn(env, "x", Live(ref), i, [Looking()], c);
      LookingTurn(env, xs[i], k, c);
      if xs[i] <= k { LoopFinds(env, ref, xs, i + 1, k, After(With(After(c, 1), "x", IntValue(xs[i])), 4)); }
    } else {
      LastTurn(env, "x", Live(ref), i, [Looking()], c);
    }
  }

  lemma FindReturns(env: Env, xs: seq<int>, k: int, c: Ctx)
    requires "k" in c.scope && c.scope["k"] == IntValue(k) && c.steps + 2 + 8 * |xs| <= env.maxSteps
    ensures var r, v := Block(env, Find(xs).body, c), FirstAbove(xs, k);
      && r.Got? && r.value == (if v.Null? then Next else Return(v)) && r.ctx.steps <= c.steps + 2 + 8 * |xs|
      && r.ctx.depth == c.depth
  {
    var loop := ForStmt("x", ListLit(Numbers(xs)), [Looking()]);
    var d := Holding(After(c, 2 + |xs|), Items(IntValues(xs)));
    assert xs[0..] == xs;
    hide Exec, Eval, Block, Loop, Looking, Debt, Credit;
    ListGives(env, xs, After(c, 1));
    ForGives(env, "x", ListLit(Numbers(xs)), [Looking()], c, List(|c.heap|), d);
    LoopFinds(env, |c.heap|, xs, 0, k, d);
    OnlyOne(env, loop, c);
  }

  /** What setting a variable leaves as it was. */
  lemma WithKeeps(c: Ctx, x: string, v: Value)
    ensures var d := With(c, x, v);
      && d.steps == c.steps && d.depth == c.depth && d.functions == c.functions && d.heap == c.heap
      && d.imported == c.imported && d.output == c.output && d.journal == c.journal
      && d.scope == c.scope[x := v]
  {
  }

  lemma AfterKeeps(c: Ctx, k: nat)
    ensures var d := After(c, k);
      && d.steps == c.steps + k && d.depth == c.depth && d.functions == c.functions && d.heap == c.heap
      && d.imported == c.imported && d.output == c.output && d.journal == c.journal && d.scope == c.scope
  {
  }

  /** At the start nothing is there. */
  lemma AtStart(k: nat)
    ensures var c := After(START, k);
      c.steps == k && c.depth == 0 && c.scope == map[] && c.heap == [] && c.imported == {} && c.journal == []
    ensures START.steps == 0 && START.scope == map[]
  {
  }

  /** The context after the function is defined. */
  function WithFn(fn: Fn): Ctx {
    START.(steps := 1, functions := map[fn.name := fn])
  }

  /** A program that defines a function and goes on. */
  lemma Defining(env: Env, fn: Fn, rest: seq<Stmt>)
    requires env.maxSteps > 0
    ensures Run(env, [FnDef(fn.name, fn.params, fn.body)] + rest) == Block(env, rest, WithFn(fn))
    ensures var c := WithFn(fn);
      && c.steps == 1 && c.depth == 0 && c.scope == map[] && fn.name in c.functions && c.functions[fn.name] == fn
      && c.imported == {} && c.output == [] && c.journal == []
  {
    var define := FnDef(fn.name, fn.params, fn.body);
    assert Exec(env, define, START) == Got(Next, WithFn(fn)) by {
      hide Debt, Credit;
      assert Tick(env, START) == Got((), After(START, 1));
      assert START.functions[fn.name := fn] == map[fn.name := fn];
    }
    hide Exec, Block;
    InOrder(env, define, rest, START);
  }

  /** A call with one number, whose body has been run. */
  lemma NumberCall(env: Env, fn: Fn, k: int, c: Ctx)
    requires fn.name !in UTILITIES && fn.name in c.functions && c.functions[fn.name] == fn && |fn.params| == 1
    requires c.steps + 2 <= env.maxSteps && c.depth < env.maxDepth
    ensures var inner := With(After(c, 2), fn.params[0], IntValue(k)).(depth := c.depth + 1);
      var r := Block(env, fn.body, inner);
      r.Got? && r.ctx.depth == c.depth + 1 ==>
        Eval(env, FnCallExpr(fn.name, [Lit(k)]), c)
          == Got(if r.value.Return? then r.value.v else Null, r.ctx.(scope := c.scope, depth := c.depth))
  {
    var e := After(c, 2);
    var inner := With(e, fn.params[0], IntValue(k)).(depth := c.depth + 1);
    LitMeans(k, c.scope);
    Integers(k, 0);
    BindOne(c.scope, fn.params, IntValue(k));
    assert inner == e.(depth := e.depth + 1, scope := Bind(e.scope, fn.params, [IntValue(k)]));
    assert After(After(c, 1), 1) == e && e.scope == c.scope && e.functions == c.functions && e.depth == c.depth;
    hide Eval, EvalAll, Block, Bind, CallUser, Debt, Credit, Meaning, Cost;
    ExpressionsMeanTheirMathematics(env, Lit(k), After(c, 1));
    AllOfOne(env, Lit(k), After(c, 1));
    CallGoes(env, fn.name, fn, [Lit(k)], c, [IntValue(k)], e);
    var r := Block(env, fn.body, inner);
    if r.Got? && r.ctx.depth == c.depth + 1 { CallEnds(env, fn, [IntValue(k)], e, r.value, r.ctx); }
  }

  lemma FindRuns(env: Env, xs: seq<int>, k: int)
    requires 6 + 8 * |xs| <= env.maxSteps && env.maxDepth > 0
    ensures EndsWith(Run(env, FindProgram(xs, k)), "r", FirstAbove(xs, k))
  {
    hide *;
    var fn := Find(xs);
    var c, call := WithFn(fn), FnCallExpr("find", [Lit(k)]);
    FindParts(xs, k);
    Defining(env, fn, [LetStmt("r", call)]);
    OnlyOne(env, LetStmt("r", call), c);
    AfterTwice(c, 1, 2);
    AfterTwice(c, 3, 0);
    WithSets(After(c, 3), "k", IntValue(k));
    var inner := With(After(c, 3), "k", IntValue(k)).(depth := 1);
    FindReturns(env, xs, k, inner);
    var r := Block(env, fn.body, inner);
    NumberCall(env, fn, k, After(c, 1));
    var d := r.ctx.(scope := After(c, 1).scope, depth := 0);
    LetGives(env, "r", call, c, FirstAbove(xs, k), d);
    WithEnds(Run(env, FindProgram(xs, k)), d, "r", FirstAbove(xs, k));
  }

  lemma FindParts(xs: seq<int>, k: int)
    ensures Find(xs).params == ["k"] && Find(xs).name == "find" && "find" !in UTILITIES
    ensures FindProgram(xs, k)
         == [FnDef("find", Find(xs).params, Find(xs).body)] + [LetStmt("r", FnCallExpr("find", [Lit(k)]))]
    ensures forall c: Ctx, x, v :: With(c, x, v).steps == c.steps && With(c, x, v).depth == c.depth
  {
  }

  /** A `return` inside a loop leaves the loop and the function; a body that returns nothing gives null. */
  lemma FirstIsFound(env: Env, xs: seq<int>, k: int)
    requires Run(env, FindProgram(xs, k)).ctx.steps <= env.maxSteps && env.maxDepth > 0
    ensures EndsWith(Run(env, FindProgram(xs, k)), "r", FirstAbove(xs, k))
  {
    hide *;
    var more := 6 + 8 * |xs|;
    SameBeyond(env, FindProgram(xs, k), more);
    LargerLimit(env, more);
    FindRuns(Limited(env, env.maxSteps + more), xs, k);
  }

  lemma LargerLimit(env: Env, m: nat)
    ensures var big := Limited(env, env.maxSteps + m);
      && big.maxSteps == env.maxSteps + m && big.maxDepth == env.maxDepth && big.builtins == env.builtins
      && big.load == env.load && big.py == env.py && big.command == env.command && big.workspace == env.workspace
  {
  }

  // ----- scopes -----

  /** `x = $x + $z`, `let y = 7`, `return $x`. */
  function Shadow(): Fn {
    Fn("f", ["x"], [AssignStmt(X, BinOp(X, AddOp, VarRef("z"))), LetStmt("y", Lit(7)), ReturnStmt(Some(X))])
  }

  /** `fn f(x) { .. }`, `let x = a`, `let z = b`, `let r = f(k)`. */
  function ScopeProgram(a: int, b: int, k: int): seq<Stmt> {
    [FnDef("f", ["x"], Shadow().body), LetStmt("x", Lit(a)), LetStmt("z", Lit(b)),
     LetStmt("r", FnCallExpr("f", [Lit(k)]))]
  }

  lemma ShadowReturns(env: Env, k: int, b: int, c: Ctx)
    requires "x" in c.scope && c.scope["x"] == IntValue(k) && "z" in c.scope && c.scope["z"] == IntValue(b)
    requires c.steps + 8 <= env.maxSteps
    ensures var r := Block(env, Shadow().body, c);
      r.Got? && r.value == Return(IntValue(k + b)) && r.ctx.depth == c.depth && r.ctx.steps == c.steps + 8
  {
    hide *;
    var sum := BinOp(X, AddOp, VarRef("z"));
    var add, y, give := AssignStmt(VarRef("x"), sum), LetStmt("y", Lit(7)), ReturnStmt(Some(X));
    var d := With(After(c, 4), "x", IntValue(k + b));
    var e := With(After(d, 2), "y", IntValue(7));
    ShadowParts(k, b, c);
    Integers(k + b, 7);
    LitMeans(7, d.scope);
    AfterTwice(c, 4, 0);
    WithKeeps(After(c, 4), "x", IntValue(k + b));
    PlainAssign(env, "x", sum, c);
    PlainLet(env, "y", Lit(7), d);
    PlainReturn(env, X, e);
    InOrder(env, add, [y] + [give], c);
    InOrder(env, y, [give], d);
    OnlyOne(env, give, e);
    AfterKeeps(e, 2);
  }

  lemma ShadowParts(k: int, b: int, c: Ctx)
    requires "x" in c.scope && c.scope["x"] == IntValue(k) && "z" in c.scope && c.scope["z"] == IntValue(b)
    ensures var sum := BinOp(X, AddOp, VarRef("z"));
      && Shadow().body == [AssignStmt(VarRef("x"), sum)] + ([LetStmt("y", Lit(7))] + [ReturnStmt(Some(X))])
      && Meaning(sum, c.scope) == Some(I(k + b)) && Cost(sum, c.scope) == 3
    ensures var d := With(After(c, 4), "x", IntValue(k + b));
      var e := With(After(d, 2), "y", IntValue(7));
      && d.steps == c.steps + 4 && e.steps == c.steps + 6 && e.depth == c.depth
      && Meaning(X, e.scope) == Some(I(k + b)) && Cost(X, e.scope) == 1
  {
  }

  lemma ScopesRun(env: Env, a: int, b: int, k: int)
    requires 16 <= env.maxSteps && env.maxDepth > 0
    ensures ScopesAreKept(Run(env, ScopeProgram(a, b, k)), a, b, k)
  {
    hide *;
    var fn, call := Shadow(), FnCallExpr("f", [Lit(k)]);
    var c := WithFn(fn);
    var d := With(After(c, 2), "x", IntValue(a));
    var e := With(After(d, 2), "z", IntValue(b));
    ScopeParts(a, b, k);
    Defining(env, fn, [LetStmt("x", Lit(a))] + ([LetStmt("z", Lit(b))] + [LetStmt("r", call)]));
    LitMeans(a, c.scope);
    LitMeans(b, d.scope);
    Integers(a, b);
    PlainLet(env, "x", Lit(a), c);
    PlainLet(env, "z", Lit(b), d);
    InOrder(env, LetStmt("x", Lit(a)), [LetStmt("z", Lit(b))] + [LetStmt("r", call)], c);
    InOrder(env, LetStmt("z", Lit(b)), [LetStmt("r", call)], d);
    OnlyOne(env, LetStmt("r", call), e);
    AfterTwice(e, 1, 2);
    var inner := With(After(e, 3), "x", IntValue(k)).(depth := 1);
    ShadowReturns(env, k, b, inner);
    var r := Block(env, fn.body, inner);
    NumberCall(env, fn, k, After(e, 1));
    var f := r.ctx.(scope := e.scope, depth := 0);
    LetGives(env, "r", call, e, IntValue(k + b), f);
    ScopeEnds(Run(env, ScopeProgram(a, b, k)), f, a, b, k);
  }

  /** The caller's `x` is as it was, the function's `y` is gone, and the function saw the caller's `z`. */
  predicate ScopesAreKept(r: Out<Flow>, a: int, b: int, k: int) {
    EndsWith(r, "r", IntValue(k + b)) && EndsWith(r, "x", IntValue(a)) && "y" !in r.ctx.scope
  }

  lemma ScopeParts(a: int, b: int, k: int)
    ensures var fn, c := Shadow(), WithFn(Shadow());
      var d := With(After(c, 2), "x", IntValue(a));
      var e := With(After(d, 2), "z", IntValue(b));
      var inner := With(After(e, 3), "x", IntValue(k)).(depth := 1);
      && fn.params == ["x"] && fn.name == "f" && "f" !in UTILITIES && c.steps == 1
      && ScopeProgram(a, b, k) == [FnDef(fn.name, fn.params, fn.body)]
           + ([LetStmt("x", Lit(a))] + ([LetStmt("z", Lit(b))] + [LetStmt("r", FnCallExpr("f", [Lit(k)]))]))
      && d.steps == 3 && e.steps == 5 && After(e, 1).steps == 6 && After(e, 1).functions == c.functions
      && After(e, 1).depth == 0 && After(e, 1).scope == e.scope
      && inner == With(After(After(e, 1), 2), "x", IntValue(k)).(depth := 0 + 1)
      && inner.steps == 8 && "x" in inner.scope && inner.scope["x"] == IntValue(k)
      && "z" in inner.scope && inner.scope["z"] == IntValue(b)
  {
  }

  lemma ScopeEnds(r: Out<Flow>, f: Ctx, a: int, b: int, k: int)
    requires r == Got(Next, With(f, "r", IntValue(k + b)))
    requires f.scope == With(After(With(After(WithFn(Shadow()), 2), "x", IntValue(a)), 2), "z", IntValue(b)).scope
    ensures ScopesAreKept(r, a, b, k)
  {
  }

  /** A function sees its caller's variables, and what it does to variables ends with it. */
  lemma FunctionsKeepTheirCallersVariables(env: Env, a: int, b: int, k: int)
    requires Run(env, ScopeProgram(a, b, k)).ctx.steps <= env.maxSteps && env.maxDepth > 0
    ensures ScopesAreKept(Run(env, ScopeProgram(a, b, k)), a, b, k)
  {
    hide *;
    SameBeyond(env, ScopeProgram(a, b, k), 16);
    LargerLimit(env, 16);
    ScopesRun(Limited(env, env.maxSteps + 16), a, b, k);
  }

  // ----- errors -----

  /** `n / d` */
  function Quotient(n: int, d: int): Expr {
    BinOp(Lit(n), DivOp, Lit(d))
  }

  /** `let a = n / d` and `let b = 1`. */
  function Risky(n: int, d: int): seq<Stmt> {
    [LetStmt("a", Quotient(n, d)), LetStmt("b", Lit(1))]
  }

  const HANDLER: seq<Stmt> := [LetStmt("m", VarRef("e"))]

  /** `let b = 0`, and `try { .. } catch e { let m = $e }`. */
  function TryProgram(n: int, d: int): seq<Stmt> {
    [LetStmt("b", Lit(0)), TryCatch(Risky(n, d), "e", HANDLER)]
  }

  const ZERO := "Division by zero"

  lemma QuotientGives(env: Env, n: int, d: int, c: Ctx)
    requires c.steps + 3 <= env.maxSteps
    ensures Eval(env, Quotient(n, d), c)
         == if d == 0 then Raised(ScriptFault(ZERO), After(c, 3))
            else Got(Number(Float(n as real / d as real)), After(c, 3))
  {
    hide *;
    LitMeans(n, c.scope);
    LitMeans(d, c.scope);
    Integers(n, d);
    AfterTwice(c, 1, 1);
    AfterTwice(c, 2, 1);
    ExpressionsMeanTheirMathematics(env, Lit(n), After(c, 1));
    ExpressionsMeanTheirMathematics(env, Lit(d), After(c, 2));
    Divides(env.py, n, d, After(c, 3).heap);
    StrictGives(env, Lit(n), DivOp, Lit(d), c, IntValue(n), After(c, 2), IntValue(d), After(c, 3));
    Settles(n, d, After(c, 3));
  }

  /** What division gives. */
  function Divided(n: int, d: int): Answer<Value> {
    if d == 0 then Fails(ScriptFault(ZERO)) else Gives(Number(Float(n as real / d as real)))
  }

  lemma Divides(py: Runtime, n: int, d: int, heap: Heap)
    ensures Apply(py, DivOp, IntValue(n), IntValue(d), heap) == Divided(n, d)
  {
  }

  lemma Settles(n: int, d: int, c: Ctx)
    ensures Settle(Divided(n, d), c)
         == if d == 0 then Raised(ScriptFault(ZERO), c) else Got(Number(Float(n as real / d as real)), c)
    ensures Quotient(n, d) == BinOp(Lit(n), DivOp, Lit(d))
  {
  }

  /** The division succeeds and the block goes on, or it fails, the rest of the block is left out, and the
      handler has the message. */
  predicate DivisionHandled(r: Out<Flow>, n: int, d: int) {
    && r.Got? && r.value.Next?
    && (d != 0 ==>
          && EndsWith(r, "a", Number(Float(n as real / d as real))) && EndsWith(r, "b", IntValue(1))
          && "m" !in r.ctx.scope)
    && (d == 0 ==> EndsWith(r, "m", Str(ZERO)) && EndsWith(r, "b", IntValue(0)) && "a" !in r.ctx.scope)
  }

  lemma DivisionRuns(env: Env, n: int, d: int)
    requires 12 <= env.maxSteps
    ensures DivisionHandled(Run(env, TryProgram(n, d)), n, d)
  {
    hide *;
    var c := With(After(START, 2), "b", IntValue(0));
    var attempt := TryCatch(Risky(n, d), "e", HANDLER);
    TryParts(n, d);
    LitMeans(0, START.scope);
    Integers(0, 1);
    AtStart(2);
    WithKeeps(After(START, 2), "b", IntValue(0));
    PlainLet(env, "b", Lit(0), START);
    RunsAsBlock(env, TryProgram(n, d));
    InOrder(env, LetStmt("b", Lit(0)), [attempt], START);
    OnlyOne(env, attempt, c);
    TryGoes(env, Risky(n, d), "e", HANDLER, c);
    InOrder(env, LetStmt("a", Quotient(n, d)), [LetStmt("b", Lit(1))], After(c, 1));
    AfterTwice(c, 1, 1);
    AfterTwice(c, 2, 3);
    QuotientGives(env, n, d, After(c, 2));
    if d == 0 { DivisionCaught(env, n, d, c); } else { DivisionDone(env, n, d, c); }
    DivisionEnds(Run(env, TryProgram(n, d)), After(c, 5), n, d);
  }

  lemma TryParts(n: int, d: int)
    ensures TryProgram(n, d) == [LetStmt("b", Lit(0))] + [TryCatch(Risky(n, d), "e", HANDLER)]
    ensures Risky(n, d) == [LetStmt("a", Quotient(n, d))] + [LetStmt("b", Lit(1))]
    ensures HANDLER == [LetStmt("m", VarRef("e"))]
    ensures ScriptFault(ZERO).text == ZERO
  {
  }

  lemma DivisionCaught(env: Env, n: int, d: int, c: Ctx)
    requires c.steps + 7 <= env.maxSteps
    requires Eval(env, Quotient(n, d), After(c, 2)) == Raised(ScriptFault(ZERO), After(c, 5))
    ensures Exec(env, LetStmt("a", Quotient(n, d)), After(c, 1)) == Raised(ScriptFault(ZERO), After(c, 5))
    ensures var h := With(After(c, 5), "e", Str(ZERO));
      Block(env, HANDLER, h) == Got(Next, With(After(h, 2), "m", Str(ZERO)))
  {
    hide *;
    var h := With(After(c, 5), "e", Str(ZERO));
    TryParts(n, d);
    AfterTwice(c, 1, 1);
    AfterKeeps(c, 5);
    WithKeeps(After(c, 5), "e", Str(ZERO));
    AfterTwice(h, 1, 1);
    LetRaises(env, "a", Quotient(n, d), After(c, 1), ScriptFault(ZERO), After(c, 5));
    VariableGives(env, "e", After(h, 1));
    LetGives(env, "m", VarRef("e"), h, Str(ZERO), After(h, 2));
    OnlyOne(env, LetStmt("m", VarRef("e")), h);
  }

  lemma DivisionDone(env: Env, n: int, d: int, c: Ctx)
    requires c.steps + 7 <= env.maxSteps && d != 0
    requires var v := Number(Float(n as real / d as real));
      Eval(env, Quotient(n, d), After(c, 2)) == Got(v, After(c, 5))
    ensures var v := Number(Float(n as real / d as real));
      var e := With(After(c, 5), "a", v);
      && Exec(env, LetStmt("a", Quotient(n, d)), After(c, 1)) == Got(Next, e)
      && Block(env, [LetStmt("b", Lit(1))], e) == Got(Next, With(After(e, 2), "b", IntValue(1)))
  {
    hide *;
    var v := Number(Float(n as real / d as real));
    var e := With(After(c, 5), "a", v);
    AfterTwice(c, 1, 1);
    AfterKeeps(c, 5);
    WithKeeps(After(c, 5), "a", v);
    LitMeans(1, e.scope);
    Integers(1, 1);
    LetGives(env, "a", Quotient(n, d), After(c, 1), v, After(c, 5));
    PlainLet(env, "b", Lit(1), e);
    OnlyOne(env, LetStmt("b", Lit(1)), e);
  }

  lemma DivisionEnds(r: Out<Flow>, c: Ctx, n: int, d: int)
    requires c.scope == map["b" := IntValue(0)]
    requires r == if d == 0 then Got(Next, With(After(With(c, "e", Str(ZERO)), 2), "m", Str(ZERO)))
                  else Got(Next, With(After(With(c, "a", Number(Float(n as real / d as real))), 2), "b", IntValue(1)))
    ensures DivisionHandled(r, n, d)
  {
  }

  /** A script's error is caught with its message, and only what came before it in the block was done. */
  lemma DivisionIsHandled(env: Env, n: int, d: int)
    requires Run(env, TryProgram(n, d)).ctx.steps <= env.maxSteps
    ensures DivisionHandled(Run(env, TryProgram(n, d)), n, d)
  {
    hide *;
    SameBeyond(env, TryProgram(n, d), 12);
    LargerLimit(env, 12);
    DivisionRuns(Limited(env, env.maxSteps + 12), n, d);
  }

  // ----- indexes -----

  /** The item an index means: a negative one counts from the end. */
  function ItemAt(xs: seq<int>, i: int): Option<int> {
    if 0 <= i < |xs| then Some(xs[i]) else if -|xs| <= i < 0 then Some(xs[|xs| + i]) else None
  }

  const XS := VarRef("xs")

  /** `let xs = [..]` and `try { let a = $xs[i] } catch e { let m = $e }`. */
  function IndexProgram(xs: seq<int>, i: int): seq<Stmt> {
    [LetStmt("xs", ListLit(Numbers(xs))), TryCatch([LetStmt("a", IndexExpr(XS, Lit(i)))], "e", HANDLER)]
  }

  /** The item, or an error that no script can catch. */
  predicate ItemGiven(r: Out<Flow>, xs: seq<int>, i: int) {
    match ItemAt(xs, i)
    case Some(x) => EndsWith(r, "a", IntValue(x)) && "m" !in r.ctx.scope
    case None => r.Raised? && r.fault.OtherFault? && "m" !in r.ctx.scope
  }

  lemma ItemGives(env: Env, xs: seq<int>, i: int, c: Ctx)
    requires "xs" in c.scope && c.scope["xs"] == List(0) && |c.heap| > 0 && c.heap[0] == Items(IntValues(xs))
    requires c.steps + 3 <= env.maxSteps
    ensures var r := Eval(env, IndexExpr(XS, Lit(i)), c);
      match ItemAt(xs, i)
      case Some(x) => r == Got(IntValue(x), After(c, 3))
      case None => r == Raised(OtherFault("index out of range"), After(c, 3))
  {
    LitMeans(i, c.scope);
    Integers(i, 0);
    assert ItemsAt(c.heap, 0) == IntValues(xs);
    hide Eval, Meaning, Cost;
    VariableGives(env, "xs", After(c, 1));
    ExpressionsMeanTheirMathematics(env, Lit(i), After(c, 2));
    IndexGives(env, XS, Lit(i), c, List(0), After(c, 2), IntValue(i), After(c, 3));
  }

  lemma ItemRuns(env: Env, xs: seq<int>, i: int)
    requires 8 + |xs| <= env.maxSteps
    ensures ItemGiven(Run(env, IndexProgram(xs, i)), xs, i)
  {
    hide *;
    var h := Holding(After(START, 2 + |xs|), Items(IntValues(xs)));
    var c := With(h, "xs", List(0));
    var body := LetStmt("a", IndexExpr(XS, Lit(i)));
    var attempt := TryCatch([body], "e", HANDLER);
    IndexParts(xs, i);
    AtStart(1);
    AfterTwice(START, 1, 1 + |xs|);
    RunsAsBlock(env, IndexProgram(xs, i));
    ListGives(env, xs, After(START, 1));
    LetGives(env, "xs", ListLit(Numbers(xs)), START, List(0), h);
    InOrder(env, LetStmt("xs", ListLit(Numbers(xs))), [attempt], START);
    OnlyOne(env, attempt, c);
    TryGoes(env, [body], "e", HANDLER, c);
    OnlyOne(env, body, After(c, 1));
    AfterTwice(c, 1, 1);
    AfterTwice(c, 2, 3);
    AfterKeeps(c, 2);
    ItemGives(env, xs, i, After(c, 2));
    if ItemAt(xs, i).Some? {
      LetGives(env, "a", IndexExpr(XS, Lit(i)), After(c, 1), IntValue(ItemAt(xs, i).value), After(c, 5));
    } else {
      LetRaises(env, "a", IndexExpr(XS, Lit(i)), After(c, 1), OtherFault("index out of range"), After(c, 5));
    }
    AfterKeeps(c, 5);
    ItemEnds(Run(env, IndexProgram(xs, i)), After(c, 5), xs, i);
  }

  lemma IndexParts(xs: seq<int>, i: int)
    ensures IndexProgram(xs, i)
         == [LetStmt("xs", ListLit(Numbers(xs)))] + [TryCatch([LetStmt("a", IndexExpr(XS, Lit(i)))], "e", HANDLER)]
    ensures var c := With(Holding(After(START, 2 + |xs|), Items(IntValues(xs))), "xs", List(0));
      && c.steps == 2 + |xs| && c.scope == map["xs" := List(0)] && |c.heap| == 1 && c.heap[0] == Items(IntValues(xs))
    ensures |After(START, 1).heap| == 0
  {
  }

  lemma ItemEnds(r: Out<Flow>, c: Ctx, xs: seq<int>, i: int)
    requires c.scope == map["xs" := List(0)]
    requires match ItemAt(xs, i)
      case Some(x) => r == Got(Next, With(c, "a", IntValue(x)))
      case None => r == Raised(OtherFault("index out of range"), c)
    ensures ItemGiven(r, xs, i)
  {
  }

  /** An index gives the item it means, and one out of range an error that a `try` does not catch. */
  lemma ItemIsGiven(env: Env, xs: seq<int>, i: int)
    requires Run(env, IndexProgram(xs, i)).ctx.steps <= env.maxSteps
    ensures ItemGiven(Run(env, IndexProgram(xs, i)), xs, i)
  {
    hide *;
    SameBeyond(env, IndexProgram(xs, i), 8 + |xs|);
    LargerLimit(env, 8 + |xs|);
    ItemRuns(Limited(env, env.maxSteps + (8 + |xs|)), xs, i);
  }

  // ----- imports -----

  /** `n = $n + 1` */
  const COUNTING := AssignStmt(VarRef("n"), BinOp(VarRef("n"), AddOp, Lit(1)))

  /** `let n = k`, and two imports of one file. */
  function ImportProgram(k: int, path: string): seq<Stmt> {
    [LetStmt("n", Lit(k)), ImportStmt(path), ImportStmt(path)]
  }

  lemma CountMeans(k: int, scope: Scope)
    requires "n" in scope && scope["n"] == IntValue(k)
    ensures var sum := BinOp(VarRef("n"), AddOp, Lit(1));
      Meaning(sum, scope) == Some(I(k + 1)) && Cost(sum, scope) == 3 && ValueOf(I(k + 1)) == IntValue(k + 1)
  {
  }

  /** `n = $n + 1` */
  lemma Counts(env: Env, k: int, c: Ctx)
    requires "n" in c.scope && c.scope["n"] == IntValue(k) && c.steps + 4 <= env.maxSteps
    ensures Block(env, [COUNTING], c) == Got(Next, With(After(c, 4), "n", IntValue(k + 1)))
  {
    CountMeans(k, c.scope);
    var counting := COUNTING;
    assert counting == AssignStmt(VarRef("n"), BinOp(VarRef("n"), AddOp, Lit(1)));
    hide *;
    PlainAssign(env, "n", BinOp(VarRef("n"), AddOp, Lit(1)), c);
    OnlyOne(env, counting, c);
  }

  lemma ImportRuns(env: Env, k: int, path: string)
    requires 8 <= env.maxSteps && env.load(path, []) == Loaded([COUNTING])
    ensures EndsWith(Run(env, ImportProgram(k, path)), "n", IntValue(k + 1))
  {
    hide *;
    var c := With(After(START, 2), "n", IntValue(k));
    var d := After(c, 1).(imported := {path});
    var e := With(After(d, 4), "n", IntValue(k + 1));
    var imp := ImportStmt(path);
    ImportParts(k, path);
    RunsAsBlock(env, ImportProgram(k, path));
    LitMeans(k, START.scope);
    Integers(k, k);
    AtStart(2);
    PlainLet(env, "n", Lit(k), START);
    InOrder(env, LetStmt("n", Lit(k)), [imp] + [imp], START);
    ImportGoes(env, path, c);
    Counts(env, k, d);
    InOrder(env, imp, [imp], c);
    ImportGoes(env, path, e);
    OnlyOne(env, imp, e);
    ImportEnds(Run(env, ImportProgram(k, path)), After(d, 4), k);
  }

  lemma ImportParts(k: int, path: string)
    ensures ImportProgram(k, path) == [LetStmt("n", Lit(k))] + ([ImportStmt(path)] + [ImportStmt(path)])
    ensures var c := With(After(START, 2), "n", IntValue(k));
      var d := After(c, 1).(imported := {path});
      var e := With(After(d, 4), "n", IntValue(k + 1));
      && c.steps == 2 && c.imported == {} && c.journal == [] && c.imported + {path} == {path}
      && d.steps == 3 && "n" in d.scope && d.scope["n"] == IntValue(k)
      && e.steps == 7 && path in e.imported
  {
  }

  lemma ImportEnds(r: Out<Flow>, c: Ctx, k: int)
    requires r == Got(Next, After(With(c, "n", IntValue(k + 1)), 1))
    ensures EndsWith(r, "n", IntValue(k + 1))
  {
  }

  /** An import runs the file on the importer's own variables, and the second import of it nothing. */
  lemma ImportedOnce(env: Env, k: int, path: string)
    requires Run(env, ImportProgram(k, path)).ctx.steps <= env.maxSteps && env.load(path, []) == Loaded([COUNTING])
    ensures EndsWith(Run(env, ImportProgram(k, path)), "n", IntValue(k + 1))
  {
    hide *;
    SameBeyond(env, ImportProgram(k, path), 8);
    LargerLimit(env, 8);
    ImportRuns(Limited(env, env.maxSteps + 8), k, path);
  }
}
