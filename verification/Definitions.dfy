/** What whole programs do with functions that are defined twice, inside others, or under the name of a
    utility, and with utilities that are given what they cannot use. */
module Definitions {
  import opened Wrappers
  import opened Syntax
  import opened Values
  import opened Interpretation
  import opened Evaluation
  import opened Programs
  import opened Behaviours
  import opened Commands
  import opened Collections
  import opened Conversions
  import opened Failures
  import opened Fuel

  // ----- defining -----

  /** `fn f() { return k }` */
  function Constant(f: string, k: int): Fn {
    Fn(f, [], [ReturnStmt(Some(Lit(k)))])
  }

  function Define(fn: Fn): Stmt {
    FnDef(fn.name, fn.params, fn.body)
  }

  lemma DefineRuns(env: Env, fn: Fn, c: Ctx)
    requires c.steps < env.maxSteps
    ensures Exec(env, Define(fn), c) == Got(Next, After(c, 1).(functions := c.functions[fn.name := fn]))
  {
    hide Debt, Credit;
    assert Tick(env, c) == Got((), After(c, 1));
  }

  lemma ConstantReturns(env: Env, f: string, k: int, c: Ctx)
    requires c.steps + 2 <= env.maxSteps
    ensures Block(env, Constant(f, k).body, c) == Got(Return(IntValue(k)), After(c, 2))
  {
    hide *;
    ConstantIs(f, k);
    LitMeans(k, c.scope);
    Integers(k, k);
    PlainReturn(env, Lit(k), c);
    OnlyOne(env, ReturnStmt(Some(Lit(k))), c);
  }

  lemma ConstantIs(f: string, k: int)
    ensures Constant(f, k).name == f && Constant(f, k).params == []
    ensures Constant(f, k).body == [ReturnStmt(Some(Lit(k)))]
  {
  }

  /** `let r = f()` where `f` returns a number. */
  lemma ConstantCalled(env: Env, f: string, k: int, c: Ctx)
    requires f !in UTILITIES && f in c.functions && c.functions[f] == Constant(f, k)
    requires c.depth < env.maxDepth && c.steps + 4 <= env.maxSteps
    ensures EndsWith(Exec(env, LetStmt("r", FnCallExpr(f, [])), c), "r", IntValue(k))
  {
    hide *;
    var call, e := FnCallExpr(f, []), After(c, 2);
    var inner := e.(depth := e.depth + 1, scope := Bind(e.scope, [], []));
    ConstantIs(f, k);
    AfterKeeps(c, 1);
    AfterKeeps(c, 2);
    AfterTwice(c, 1, 1);
    ConstantReturns(env, f, k, inner);
    BodyReturns(env, Constant(f, k), [], e, IntValue(k), 2);
    NoValues(env, After(c, 2));
    CallGoes(env, f, Constant(f, k), [], After(c, 1), [], e);
    LetGives(env, "r", call, c, IntValue(k), After(e, 2));
    WithEnds(Exec(env, LetStmt("r", call), c), After(e, 2), "r", IntValue(k));
  }

  // ----- twice -----

  /** `fn f() { return j }`, `fn f() { return k }`, `let r = f()`. */
  function TwiceProgram(j: int, k: int): seq<Stmt> {
    [Define(Constant("f", j)), Define(Constant("f", k)), LetStmt("r", FnCallExpr("f", []))]
  }

  lemma TwiceParts(j: int, k: int)
    ensures TwiceProgram(j, k)
         == [Define(Constant("f", j))] + ([Define(Constant("f", k))] + [LetStmt("r", FnCallExpr("f", []))])
    ensures "f" !in UTILITIES && "g" !in UTILITIES
  {
  }

  /** The later definition counts. */
  lemma LaterDefinitionsCount(env: Env, j: int, k: int)
    requires Run(env, TwiceProgram(j, k)).ctx.steps <= env.maxSteps && env.maxDepth > 0
    ensures EndsWith(Run(env, TwiceProgram(j, k)), "r", IntValue(k))
  {
    hide *;
    var big := Limited(env, env.maxSteps + 6);
    var c := After(START, 1).(functions := START.functions["f" := Constant("f", j)]);
    var d := After(c, 1).(functions := c.functions["f" := Constant("f", k)]);
    SameBeyond(env, TwiceProgram(j, k), 6);
    LargerLimit(env, 6);
    TwiceParts(j, k);
    ConstantIs("f", j);
    ConstantIs("f", k);
    AtStart(1);
    AfterKeeps(c, 1);
    RunsAsBlock(big, TwiceProgram(j, k));
    DefineRuns(big, Constant("f", j), START);
    InOrder(big, Define(Constant("f", j)), [Define(Constant("f", k))] + [LetStmt("r", FnCallExpr("f", []))], START);
    DefineRuns(big, Constant("f", k), c);
    InOrder(big, Define(Constant("f", k)), [LetStmt("r", FnCallExpr("f", []))], c);
    ConstantCalled(big, "f", k, d);
    OnlyOne(big, LetStmt("r", FnCallExpr("f", [])), d);
  }

  // ----- inside -----

  /** `fn f() { fn g() { return k } }` */
  function Outer(k: int): Fn {
    Fn("f", [], [Define(Constant("g", k))])
  }

  /** The function, `f()` and `let r = g()`. */
  function InsideProgram(k: int): seq<Stmt> {
    [Define(Outer(k)), ExprStmt(FnCallExpr("f", [])), LetStmt("r", FnCallExpr("g", []))]
  }

  lemma InsideParts(k: int)
    ensures InsideProgram(k)
         == [Define(Outer(k))] + ([ExprStmt(FnCallExpr("f", []))] + [LetStmt("r", FnCallExpr("g", []))])
    ensures Outer(k).name == "f" && Outer(k).params == [] && Outer(k).body == [Define(Constant("g", k))]
    ensures "f" !in UTILITIES && "g" !in UTILITIES && !Null.Str?
  {
  }

  lemma OuterCalled(env: Env, k: int, c: Ctx)
    requires "f" in c.functions && c.functions["f"] == Outer(k) && c.depth < env.maxDepth
    requires c.steps + 3 <= env.maxSteps
    ensures Exec(env, ExprStmt(FnCallExpr("f", [])), c)
         == Got(Next, After(c, 3).(functions := c.functions["g" := Constant("g", k)]))
  {
    hide *;
    var call, e := FnCallExpr("f", []), After(c, 2);
    var inner := e.(depth := e.depth + 1, scope := Bind(e.scope, [], []));
    var d := After(inner, 1).(functions := inner.functions["g" := Constant("g", k)]);
    var r := After(c, 3).(functions := c.functions["g" := Constant("g", k)]);
    InsideParts(k);
    ConstantIs("g", k);
    AfterKeeps(c, 1);
    AfterKeeps(c, 2);
    AfterTwice(c, 1, 1);
    AfterKeeps(inner, 1);
    DefineRuns(env, Constant("g", k), inner);
    OnlyOne(env, Define(Constant("g", k)), inner);
    CallEnds(env, Outer(k), [], e, Next, d);
    BackOutside(c, k);
    NoValues(env, After(c, 2));
    CallGoes(env, "f", Outer(k), [], After(c, 1), [], e);
    CallStatement(env, call, c, Got(Null, r));
  }

  /** What is defined inside stays when the caller's variables and depth come back. */
  lemma BackOutside(c: Ctx, k: int)
    ensures var e := After(c, 2);
      var inner := e.(depth := e.depth + 1, scope := Bind(e.scope, [], []));
      var d := After(inner, 1).(functions := inner.functions["g" := Constant("g", k)]);
      && d.depth == e.depth + 1
      && d.(scope := e.scope, depth := e.depth) == After(c, 3).(functions := c.functions["g" := Constant("g", k)])
  {
    hide Constant, Bind;
  }

  /** A function defined in another one's body can be called after that one has returned. */
  lemma InnerDefinitionsStay(env: Env, k: int)
    requires Run(env, InsideProgram(k)).ctx.steps <= env.maxSteps && env.maxDepth > 0
    ensures EndsWith(Run(env, InsideProgram(k)), "r", IntValue(k))
  {
    hide *;
    var big := Limited(env, env.maxSteps + 8);
    var call, last := ExprStmt(FnCallExpr("f", [])), LetStmt("r", FnCallExpr("g", []));
    var c := After(START, 1).(functions := START.functions["f" := Outer(k)]);
    var d := After(c, 3).(functions := c.functions["g" := Constant("g", k)]);
    SameBeyond(env, InsideProgram(k), 8);
    LargerLimit(env, 8);
    InsideParts(k);
    AtStart(1);
    AfterKeeps(c, 3);
    RunsAsBlock(big, InsideProgram(k));
    DefineRuns(big, Outer(k), START);
    InOrder(big, Define(Outer(k)), [call] + [last], START);
    OuterCalled(big, k, c);
    InOrder(big, call, [last], c);
    ConstantCalled(big, "g", k, d);
    OnlyOne(big, last, d);
  }

  // ----- utilities -----

  /** `fn append(x, y) { return 0 }`, `let a = [..]`, `let r = append($a, w)`. */
  function UtilityProgram(xs: seq<int>, w: int): seq<Stmt> {
    [Define(Own()), LetStmt("a", ListLit(Numbers(xs))), LetStmt("r", FnCallExpr("append", [A, Lit(w)]))]
  }

  function Own(): Fn {
    Fn("append", ["x", "y"], [ReturnStmt(Some(Lit(0)))])
  }

  lemma UtilityParts(xs: seq<int>, w: int)
    ensures UtilityProgram(xs, w)
         == [Define(Own())] + ([LetStmt("a", ListLit(Numbers(xs)))] + [LetStmt("r", FnCallExpr("append", [A, Lit(w)]))])
    ensures A == VarRef("a")
    ensures var c := After(START, 1).(functions := START.functions[Own().name := Own()]);
      && c.steps == 1 && After(c, 1).heap == []
      && var d := With(Holding(After(c, 2 + |xs|), Items(IntValues(xs))), "a", List(0));
         && d.steps == 3 + |xs| && "a" in d.scope && d.scope["a"] == List(0)
         && After(d, 4).heap == [Items(IntValues(xs))]
  {
  }

  lemma UtilityCalled(env: Env, es: seq<Expr>, c: Ctx, vs: seq<Value>, d: Ctx)
    requires c.steps < env.maxSteps && EvalAll(env, es, After(c, 1)) == Got(vs, d)
    ensures Eval(env, FnCallExpr("append", es), c) == CallUtility(env, "append", vs, d)
  {
    hide EvalAll, CallUtility, CallUser, CallBuiltin, Debt, Credit;
    assert Tick(env, c) == Got((), After(c, 1));
  }

  /** `append` is the utility even where a script has a function of that name; it changes the list and
      returns it. */
  lemma UtilitiesComeFirst(env: Env, xs: seq<int>, w: int)
    requires Run(env, UtilityProgram(xs, w)).ctx.steps <= env.maxSteps
    ensures var r := Run(env, UtilityProgram(xs, w));
      && EndsWith(r, "a", List(0)) && EndsWith(r, "r", List(0))
      && r.ctx.heap == [Items(IntValues(xs + [w]))]
  {
    hide *;
    var k := 7 + |xs|;
    var big := Limited(env, env.maxSteps + k);
    var make, add := LetStmt("a", ListLit(Numbers(xs))), FnCallExpr("append", [A, Lit(w)]);
    var c := After(START, 1).(functions := START.functions[Own().name := Own()]);
    var made := Holding(After(c, 2 + |xs|), Items(IntValues(xs)));
    var d := With(made, "a", List(0));
    SameBeyond(env, UtilityProgram(xs, w), k);
    LargerLimit(env, k);
    UtilityParts(xs, w);
    AtStart(1);
    RunsAsBlock(big, UtilityProgram(xs, w));
    DefineRuns(big, Own(), START);
    InOrder(big, Define(Own()), [make] + [LetStmt("r", add)], START);
    AfterTwice(c, 1, 1 + |xs|);
    ListGives(big, xs, After(c, 1));
    LetGives(big, "a", ListLit(Numbers(xs)), c, List(0), made);
    InOrder(big, make, [LetStmt("r", add)], c);
    AfterTwice(d, 1, 1);
    AfterTwice(d, 2, 1);
    AfterTwice(d, 3, 1);
    AfterKeeps(d, 1);
    AfterKeeps(d, 2);
    AfterKeeps(d, 3);
    AfterKeeps(d, 4);
    LitMeans(w, d.scope);
    Integers(w, w);
    VariableGives(big, "a", After(d, 2));
    ExpressionsMeanTheirMathematics(big, Lit(w), After(d, 3));
    AllOfTwo(big, A, Lit(w), After(d, 2));
    UtilityCalled(big, [A, Lit(w)], After(d, 1), [List(0), IntValue(w)], After(d, 4));
    Appends(big, xs, w, After(d, 4));
    var r := CallUtility(big, "append", [List(0), IntValue(w)], After(d, 4));
    LetGives(big, "r", add, d, List(0), r.ctx);
    OnlyOne(big, LetStmt("r", add), d);
    WithKeeps(r.ctx, "r", List(0));
    BothEnd(Run(big, UtilityProgram(xs, w)), r.ctx, "r", List(0), "a", List(0));
  }

  /** What `append` complains about. */
  function Complaint(args: nat): string {
    if args < 2 then "append requires (list, value)" else "append: first argument must be a list"
  }

  function Copies(k: int, n: nat): seq<int> {
    seq(n, i => k)
  }

  lemma RefusesNumbers(env: Env, k: int, n: nat, d: Ctx)
    ensures var r := CallUtility(env, "append", IntValues(Copies(k, n)), d);
      r.Raised? && r.fault == ScriptFault(Complaint(n)) && r.ctx.steps == d.steps
  {
    assert |IntValues(Copies(k, n))| == n;
    if n > 0 { assert IntValues(Copies(k, n))[0] == IntValue(k); }
    hide Debt, Credit;
  }

  /** Given numbers, or too little, `append` fails with an error that a script can catch. */
  lemma AppendWantsAList(env: Env, k: int, n: nat)
    requires var program := Trying(ExprStmt(FnCallExpr("append", Numbers(Copies(k, n)))));
      Run(env, program).ctx.steps <= env.maxSteps
    ensures CaughtAs(Run(env, Trying(ExprStmt(FnCallExpr("append", Numbers(Copies(k, n)))))), Complaint(n))
  {
    hide *;
    var call := FnCallExpr("append", Numbers(Copies(k, n)));
    var big := Limited(env, env.maxSteps + (6 + n));
    SameBeyond(env, Trying(ExprStmt(call)), 6 + n);
    LargerLimit(env, 6 + n);
    AtStart(1);
    AtStart(3 + n);
    CopiesCount(k, n);
    AfterTwice(START, 1, 1);
    AfterTwice(START, 2, 1);
    AfterTwice(START, 3, n);
    AllNumbers(big, Copies(k, n), After(START, 3));
    UtilityCalled(big, Numbers(Copies(k, n)), After(START, 2), IntValues(Copies(k, n)), After(START, 3 + n));
    RefusesNumbers(big, k, n, After(START, 3 + n));
    var r := Eval(big, call, After(START, 2));
    StatementRaises(big, call, After(START, 1), r.fault, r.ctx);
    TryingRuns(big, ExprStmt(call), r.fault, r.ctx);
  }

  lemma CopiesCount(k: int, n: nat)
    ensures |Copies(k, n)| == n && After(START, 2).steps == 2 && After(START, 3).steps == 3
  {
  }

  lemma StatementRaises(env: Env, e: Expr, c: Ctx, f: Fault, d: Ctx)
    requires c.steps < env.maxSteps && Eval(env, e, After(c, 1)) == Raised(f, d)
    ensures Exec(env, ExprStmt(e), c) == Raised(f, d)
  {
    hide Eval, Debt, Credit;
    assert Tick(env, c) == Got((), After(c, 1));
  }

  // ----- functions as values and as heads of pipelines -----

  /** `fn f() { return k }`, `if $f { let k = 1 } else { let k = 2 }`. */
  function ValueProgram(k: int): seq<Stmt> {
    [Define(Constant("f", k)), Choosing(VarRef("f"))]
  }

  lemma ValueParts(k: int)
    ensures ValueProgram(k) == [Define(Constant("f", k))] + [Choosing(VarRef("f"))]
    ensures Choosing(VarRef("f")) == IfStmt(VarRef("f"), [LetStmt("k", Lit(1))], [], Else([LetStmt("k", Lit(2))]))
    ensures forall fn, heap :: Truthy(Func(fn), heap)
  {
  }

  lemma FunctionGives(env: Env, f: string, c: Ctx)
    requires c.steps < env.maxSteps && f !in c.scope && f in c.functions
    ensures Eval(env, VarRef(f), c) == Got(Func(c.functions[f]), After(c, 1))
  {
    hide Debt, Credit;
    assert Tick(env, c) == Got((), After(c, 1));
  }

  /** A function's name where there is no variable of that name is the function, which counts as true. */
  lemma FunctionsAreValues(env: Env, k: int)
    requires Run(env, ValueProgram(k)).ctx.steps <= env.maxSteps
    ensures EndsWith(Run(env, ValueProgram(k)), "k", IntValue(1))
  {
    hide *;
    var big := Limited(env, env.maxSteps + 5);
    var c := After(START, 1).(functions := START.functions["f" := Constant("f", k)]);
    var d := After(c, 2);
    SameBeyond(env, ValueProgram(k), 5);
    LargerLimit(env, 5);
    ValueParts(k);
    ConstantIs("f", k);
    AtStart(1);
    AfterKeeps(c, 1);
    AfterKeeps(c, 2);
    AfterTwice(c, 1, 1);
    RunsAsBlock(big, ValueProgram(k));
    DefineRuns(big, Constant("f", k), START);
    InOrder(big, Define(Constant("f", k)), [Choosing(VarRef("f"))], START);
    OnlyOne(big, Choosing(VarRef("f")), c);
    FunctionGives(big, "f", After(c, 1));
    IfElse(big, VarRef("f"), [LetStmt("k", Lit(1))], [LetStmt("k", Lit(2))], c, Func(Constant("f", k)), d);
    LitMeans(1, d.scope);
    Integers(1, 1);
    PlainLet(big, "k", Lit(1), d);
    OnlyOne(big, LetStmt("k", Lit(1)), d);
    WithEnds(Run(big, ValueProgram(k)), After(d, 2), "k", IntValue(1));
  }

  /** `fn f() { return k }`, `fn bang() { return $__stdin__ + "!" }`, `f() | bang`. */
  function HeadProgram(k: int): seq<Stmt> {
    [Define(Constant("f", k)), Define(Bang()), ExprStmt(PipelineExpr([HEAD, Command("bang", [])]))]
  }

  const HEAD := Command(CALL, [FnCallExpr("f", [])])

  lemma HeadParts(k: int)
    ensures HeadProgram(k) == [Define(Constant("f", k))]
         + ([Define(Bang())] + [ExprStmt(PipelineExpr([HEAD] + [Command("bang", [])]))])
    ensures "f" !in UTILITIES && HEAD == Command(CALL, [FnCallExpr("f", [])])
    ensures Bang().name == "bang" && Bang().params == [] && [Command("bang", [])] == [Command("bang", [])] + []
    ensures "bang" != CALL && After(START, 1).output == []
    ensures forall s: string :: [] + [s] == [s]
  {
    assert [HEAD] + [Command("bang", [])] == [HEAD, Command("bang", [])];
  }

  /** A call under the head's name gives the text of what is called. */
  lemma HeadGives(env: Env, k: int, c: Ctx)
    requires "f" in c.functions && c.functions["f"] == Constant("f", k) && c.depth < env.maxDepth
    requires c.steps + 4 <= env.maxSteps
    ensures RunCommand(env, HEAD, Null, c) == Got(Str(IntText(k)), After(c, 4))
  {
    hide *;
    var e := After(c, 2);
    var inner := e.(depth := e.depth + 1, scope := Bind(e.scope, [], []));
    HeadParts(k);
    ConstantIs("f", k);
    AfterKeeps(c, 1);
    AfterKeeps(c, 2);
    AfterTwice(c, 1, 1);
    AfterTwice(c, 2, 2);
    ConstantReturns(env, "f", k, inner);
    BodyReturns(env, Constant("f", k), [], e, IntValue(k), 2);
    NoValues(env, e);
    CallGoes(env, "f", Constant("f", k), [], After(c, 1), [], e);
    CallHeadGives(env, FnCallExpr("f", []), k, c, After(c, 4));
  }

  lemma CallHeadGives(env: Env, e: Expr, k: int, c: Ctx, d: Ctx)
    requires c.steps < env.maxSteps && Eval(env, e, After(c, 1)) == Got(IntValue(k), d)
    ensures RunCommand(env, Command(CALL, [e]), Null, c) == Got(Str(IntText(k)), d)
  {
    hide Eval, IntText, Debt, Credit;
    assert Tick(env, c) == Got((), After(c, 1));
  }

  /** A call at the head of a pipeline hands on the text of what it returns. */
  lemma HeadsHandOnText(env: Env, k: int)
    requires Run(env, HeadProgram(k)).ctx.steps <= env.maxSteps && env.maxDepth > 0 && "bang" !in env.builtins
    ensures Run(env, HeadProgram(k)).ctx.output == [IntText(k) + "!"]
  {
    hide *;
    var big, t := Limited(env, env.maxSteps + 13), IntText(k);
    var c := After(START, 1).(functions := START.functions["f" := Constant("f", k)]);
    var d := After(c, 1).(functions := c.functions["bang" := Bang()]);
    var pipe := ExprStmt(PipelineExpr([HEAD] + [Command("bang", [])]));
    SameBeyond(env, HeadProgram(k), 13);
    LargerLimit(env, 13);
    HeadParts(k);
    ConstantIs("f", k);
    AtStart(1);
    AfterKeeps(c, 1);
    RunsAsBlock(big, HeadProgram(k));
    DefineRuns(big, Constant("f", k), START);
    InOrder(big, Define(Constant("f", k)), [Define(Bang())] + [pipe], START);
    DefineRuns(big, Bang(), c);
    InOrder(big, Define(Bang()), [pipe], c);
    OnlyOne(big, pipe, d);
    var e, f := After(d, 2), After(d, 6);
    AfterKeeps(d, 2);
    AfterKeeps(d, 6);
    AfterTwice(d, 2, 4);
    AfterTwice(d, 6, 5);
    AfterKeeps(f, 1);
    HeadGives(big, k, e);
    PipeGoes(big, HEAD, [Command("bang", [])], Null, e, Str(t), f);
    var inner := After(f, 1).(depth := f.depth + 1, scope := f.scope[STDIN := Str(t)]);
    InnerHas(f, t);
    BangReturns(big, t, inner);
    CommandReturns(big, "bang", Bang(), Str(t), f, Str(t + "!"), 4);
    PipeGoes(big, Command("bang", []), [], Str(t), f, Str(t + "!"), After(f, 5));
    PipeEnds(big, Str(t + "!"), After(f, 5));
    PipelinePrints(big, [HEAD] + [Command("bang", [])], d, t + "!", After(f, 5));
    AfterKeeps(f, 5);
  }

  lemma InnerHas(c: Ctx, t: string)
    ensures var inner := After(c, 1).(depth := c.depth + 1, scope := c.scope[STDIN := Str(t)]);
      STDIN in inner.scope && inner.scope[STDIN] == Str(t) && inner.steps == c.steps + 1
  {
  }

  // ----- storing with `set` -----

  /** `let m = {}`, `set($m, e, v)`, `let r = $m[f]`. */
  function SetProgram(e: Expr, v: int, f: Expr): seq<Stmt> {
    [LetStmt("m", MapLit([])), ExprStmt(Setting(e, v)), LetStmt("r", IndexExpr(M, f))]
  }

  function Setting(e: Expr, v: int): Expr {
    FnCallExpr("set", [M, e, Lit(v)])
  }

  lemma SetParts(e: Expr, v: int, f: Expr)
    ensures SetProgram(e, v, f)
         == [LetStmt("m", MapLit([]))] + ([ExprStmt(Setting(e, v))] + [LetStmt("r", IndexExpr(M, f))])
    ensures Setting(e, v) == FnCallExpr("set", [M, e, Lit(v)]) && !Dict(0).Str?
    ensures [M, e, Lit(v)] != [] && [M, e, Lit(v)][0] == M && [M, e, Lit(v)][1..] == [e, Lit(v)]
    ensures forall a: Value, b: Value, c: Value :: [a] + [b, c] == [a, b, c]
  {
  }

  lemma SetCalled(env: Env, es: seq<Expr>, c: Ctx, vs: seq<Value>, d: Ctx)
    requires c.steps < env.maxSteps && EvalAll(env, es, After(c, 1)) == Got(vs, d)
    ensures Eval(env, FnCallExpr("set", es), c) == CallUtility(env, "set", vs, d)
  {
    hide EvalAll, CallUtility, CallUser, CallBuiltin, Debt, Credit;
    assert Tick(env, c) == Got((), After(c, 1));
  }

  lemma SetStored(env: Env, p: Plain, v: int, d: Ctx)
    requires KeyText(p).Some? && d.heap == [Entries([])]
    ensures var r := CallUtility(env, "set", [Dict(0), ValueOf(p), IntValue(v)], d);
      && r.Got? && r.value == Dict(0) && r.ctx.scope == d.scope && r.ctx.steps == d.steps
      && r.ctx.heap == [Entries([Entry(KeyText(p).value, IntValue(v))])]
  {
    KeysAreTexts(env.py, p, d.heap);
    hide Show, KeyText, Debt, Credit;
    assert EntriesAt(d.heap, 0) == [];
    assert d.heap[0 := Entries([Entry(KeyText(p).value, IntValue(v))])]
        == [Entries([Entry(KeyText(p).value, IntValue(v))])];
  }

  lemma SetRuns(env: Env, e: Expr, v: int, c: Ctx)
    requires c.heap == [Entries([])] && c.scope == map["m" := Dict(0)] && Meaning(e, c.scope).Some?
    requires KeyText(Meaning(e, c.scope).value).Some? && c.steps + 4 + Cost(e, c.scope) <= env.maxSteps
    ensures var r := Exec(env, ExprStmt(Setting(e, v)), c);
      && r.Got? && r.value.Next? && r.ctx.scope == c.scope && r.ctx.steps == c.steps + 4 + Cost(e, c.scope)
      && r.ctx.heap == [Entries([Entry(KeyText(Meaning(e, c.scope).value).value, IntValue(v))])]
  {
    hide *;
    var p, k := Meaning(e, c.scope).value, Cost(e, c.scope);
    var es, vs, d := [M, e, Lit(v)], [Dict(0), ValueOf(p), IntValue(v)], After(c, 4 + k);
    SetParts(e, v, e);
    KeyParts(e, v, e);
    LitMeans(v, c.scope);
    Integers(v, v);
    AfterKeeps(c, 2);
    AfterKeeps(c, 3);
    AfterKeeps(c, 3 + k);
    AfterKeeps(c, 4 + k);
    AfterTwice(c, 1, 1);
    AfterTwice(c, 2, 1);
    AfterTwice(c, 3, k);
    AfterTwice(c, 3 + k, 1);
    VariableGives(env, "m", After(c, 2));
    ExpressionsMeanTheirMathematics(env, e, After(c, 3));
    ExpressionsMeanTheirMathematics(env, Lit(v), After(c, 3 + k));
    AllOfTwo(env, e, Lit(v), After(c, 3));
    AllOfMore(env, es, After(c, 2), Dict(0), After(c, 3), [ValueOf(p), IntValue(v)], d);
    SetCalled(env, es, After(c, 1), vs, d);
    SetStored(env, p, v, d);
    CallStatement(env, Setting(e, v), c, CallUtility(env, "set", vs, d));
  }

  /** `set` stores what an assignment to an indexed place would. */
  lemma SettingIsStoring(env: Env, e: Expr, v: int, f: Expr)
    requires var scope := map["m" := Dict(0)]; Meaning(e, scope).Some? && Meaning(f, scope).Some?
    requires var scope := map["m" := Dict(0)];
      KeyText(Meaning(e, scope).value).Some? && KeyText(Meaning(f, scope).value).Some?
    requires Run(env, SetProgram(e, v, f)).ctx.steps <= env.maxSteps
    ensures var scope := map["m" := Dict(0)];
      EndsWith(Run(env, SetProgram(e, v, f)), "r",
               if KeyText(Meaning(f, scope).value) == KeyText(Meaning(e, scope).value) then IntValue(v) else Null)
  {
    hide *;
    var scope: Scope := map["m" := Dict(0)];
    var k := 9 + Cost(e, scope) + Cost(f, scope);
    var big := Limited(env, env.maxSteps + k);
    var c := With(Holding(After(START, 2), Entries([])), "m", Dict(0));
    var make, store, read := LetStmt("m", MapLit([])), ExprStmt(Setting(e, v)), LetStmt("r", IndexExpr(M, f));
    SameBeyond(env, SetProgram(e, v, f), k);
    LargerLimit(env, k);
    SetParts(e, v, f);
    KeyParts(e, v, f);
    RunsAsBlock(big, SetProgram(e, v, f));
    AtStart(1);
    EmptyMapMade();
    AfterTwice(START, 1, 1);
    MapGives(big, [], [], After(START, 1));
    LetGives(big, "m", MapLit([]), START, Dict(0), Holding(After(START, 2), Entries([])));
    InOrder(big, make, [store] + [read], START);
    SetRuns(big, e, v, c);
    InOrder(big, store, [read], c);
    var d := Exec(big, store, c).ctx;
    KeyReadAs(big, f, KeyText(Meaning(e, scope).value).value, v, d);
    OnlyOne(big, read, d);
  }
}
