/** What whole programs do with pipelines, with names that stand for several things, with too few or too
    many arguments, with operands that are no truth values, and with calls too deep. */
module Commands {
  import opened Wrappers
  import opened Syntax
  import opened Values
  import opened Interpretation
  import opened Evaluation
  import opened Marks
  import opened Programs
  import opened Behaviours
  import opened Fuel

  // ----- pipelines -----

  /** `fn start() { return ".." }` */
  function Starting(t: string): Fn {
    Fn("start", [], [ReturnStmt(Some(StringLit(t)))])
  }

  /** `fn bang() { return $__stdin__ + "!" }` */
  function Bang(): Fn {
    Fn("bang", [], [ReturnStmt(Some(BinOp(VarRef(STDIN), AddOp, StringLit("!"))))])
  }

  function Bangs(n: nat): seq<Command> {
    if n == 0 then [] else [Command("bang", [])] + Bangs(n - 1)
  }

  /** The two functions, and `start | bang | .. | bang`. */
  function PipeProgram(t: string, n: nat): seq<Stmt> {
    [FnDef("start", [], Starting(t).body), FnDef("bang", [], Bang().body),
     ExprStmt(PipelineExpr([Command("start", [])] + Bangs(n)))]
  }

  function Marked(t: string, n: nat): string
    decreases n
  {
    if n == 0 then t else Marked(t + "!", n - 1)
  }

  lemma {:induction false} MarkedIs(t: string, n: nat)
    ensures Marked(t, n) == t + seq(n, i => '!')
    decreases n
  {
    if n == 0 {
      assert t + seq(0, i => '!') == t;
    } else {
      MarkedIs(t + "!", n - 1);
      assert (t + "!") + seq(n - 1, i => '!') == t + seq(n, i => '!');
    }
  }

  lemma StartReturns(env: Env, t: string, c: Ctx)
    requires NoMarks(t) && c.steps + 2 <= env.maxSteps
    ensures Block(env, Starting(t).body, c) == Got(Return(Str(t)), After(c, 2))
  {
    hide Exec, Eval, Block, NoMarks;
    TextGives(env, t, After(c, 1));
    ReturnGives(env, StringLit(t), c, Str(t), After(c, 2));
    OnlyOne(env, ReturnStmt(Some(StringLit(t))), c);
  }

  lemma BangReturns(env: Env, t: string, c: Ctx)
    requires STDIN in c.scope && c.scope[STDIN] == Str(t) && c.steps + 4 <= env.maxSteps
    ensures Block(env, Bang().body, c) == Got(Return(Str(t + "!")), After(c, 4))
  {
    var sum := BinOp(VarRef(STDIN), AddOp, StringLit("!"));
    assert NoMarks("!");
    hide Exec, Eval, Block, EvalAll, Debt, Credit, NoMarks;
    VariableGives(env, STDIN, After(c, 2));
    TextGives(env, "!", After(c, 3));
    JoinGives(env, VarRef(STDIN), StringLit("!"), After(c, 1), t, After(c, 3), "!", After(c, 4));
    ReturnGives(env, sum, c, Str(t + "!"), After(c, 4));
    OnlyOne(env, ReturnStmt(Some(sum)), c);
  }

  /** Texts are joined. */
  lemma JoinGives(env: Env, l: Expr, r: Expr, c: Ctx, a: string, d: Ctx, b: string, e: Ctx)
    requires c.steps < env.maxSteps && Eval(env, l, After(c, 1)) == Got(Str(a), d) && Eval(env, r, d) == Got(Str(b), e)
    ensures Eval(env, BinOp(l, AddOp, r), c) == Got(Str(a + b), e)
  {
    StrictGives(env, l, AddOp, r, c, Str(a), d, Str(b), e);
    hide Eval;
  }

  /** Both functions are there, and no builtin has their names. */
  predicate CanPipe(env: Env, c: Ctx, t: string) {
    && "start" !in env.builtins && "bang" !in env.builtins
    && "start" in c.functions && c.functions["start"] == Starting(t)
    && "bang" in c.functions && c.functions["bang"] == Bang()
    && c.depth < env.maxDepth
  }

  lemma {:induction false} BangsGive(env: Env, first: string, t: string, n: nat, c: Ctx)
    requires CanPipe(env, c, first) && c.steps + 5 * n <= env.maxSteps
    ensures Pipeline(env, Bangs(n), Str(t), c) == Got(Str(Marked(t, n)), After(c, 5 * n))
    decreases n
  {
    hide Pipeline, RunCommand, Block, Debt, Credit;
    if n == 0 {
      PipeEnds(env, Str(t), c);
    } else {
      BangReturns(env, t, After(c, 1).(depth := c.depth + 1, scope := c.scope[STDIN := Str(t)]));
      CommandReturns(env, "bang", Bang(), Str(t), c, Str(t + "!"), 4);
      PipeGoes(env, Command("bang", []), Bangs(n - 1), Str(t), c, Str(t + "!"), After(c, 5));
      BangsGive(env, first, t + "!", n - 1, After(c, 5));
      AfterTwice(c, 5, 5 * (n - 1));
    }
  }

  lemma PipeGives(env: Env, t: string, n: nat, c: Ctx)
    requires CanPipe(env, c, t) && c.steps + 3 + 5 * n <= env.maxSteps && NoMarks(t)
    ensures Pipeline(env, [Command("start", [])] + Bangs(n), Null, c) == Got(Str(Marked(t, n)), After(c, 3 + 5 * n))
  {
    hide Pipeline, RunCommand, Block, Debt, Credit, NoMarks;
    StartReturns(env, t, After(c, 1).(depth := c.depth + 1));
    CommandReturns(env, "start", Starting(t), Null, c, Str(t), 2);
    PipeGoes(env, Command("start", []), Bangs(n), Null, c, Str(t), After(c, 3));
    BangsGive(env, t, t, n, After(c, 3));
    AfterTwice(c, 3, 5 * n);
  }

  /** What is printed: a text, unless it is empty. */
  function Printed(s: string): seq<string> {
    if s == "" then [] else [s]
  }

  lemma PipeRuns(env: Env, t: string, n: nat)
    requires 7 + 5 * n <= env.maxSteps && env.maxDepth > 0 && NoMarks(t)
    requires "start" !in env.builtins && "bang" !in env.builtins
    ensures var r := Run(env, PipeProgram(t, n)); r.Got? && r.value.Next? && r.ctx.output == Printed(Marked(t, n))
  {
    var commands := [Command("start", [])] + Bangs(n);
    var define, pipe := FnDef("bang", [], Bang().body), ExprStmt(PipelineExpr(commands));
    var c := WithFn(Starting(t));
    var d := After(c, 1).(functions := c.functions["bang" := Bang()]);
    Defining(env, Starting(t), [define] + [pipe]);
    assert PipeProgram(t, n) == [FnDef("start", [], Starting(t).body)] + ([define] + [pipe]);
    assert Tick(env, c) == Got((), After(c, 1));
    assert Exec(env, define, c) == Got(Next, d) by { hide Debt, Credit; }
    hide Exec, Eval, Block, Pipeline, Debt, Credit, NoMarks, Bangs;
    InOrder(env, define, [pipe], c);
    OnlyOne(env, pipe, d);
    PipeGives(env, t, n, After(d, 2));
    PipelinePrints(env, commands, d, Marked(t, n), After(d, 5 + 5 * n));
  }

  /** Each command is given what the one before it returned, in order, and the last one's text is printed. */
  lemma PipelinesPassOn(env: Env, t: string, n: nat)
    requires Run(env, PipeProgram(t, n)).ctx.steps <= env.maxSteps && env.maxDepth > 0 && NoMarks(t)
    requires "start" !in env.builtins && "bang" !in env.builtins
    ensures var r := Run(env, PipeProgram(t, n));
      r.Got? && r.value.Next? && r.ctx.output == Printed(t + seq(n, i => '!'))
  {
    hide *;
    MarkedIs(t, n);
    SameBeyond(env, PipeProgram(t, n), 7 + 5 * n);
    LargerLimit(env, 7 + 5 * n);
    PipeRuns(Limited(env, env.maxSteps + (7 + 5 * n)), t, n);
  }

  // ----- arguments -----

  /** `fn f(x, y) { return $x }` or `{ return $y }` */
  function Second(x: string): Fn {
    Fn("f", ["x", "y"], [ReturnStmt(Some(VarRef(x)))])
  }

  /** The function, and `let r = f(k)`. */
  function FewProgram(x: string, k: int): seq<Stmt> {
    [FnDef("f", ["x", "y"], Second(x).body), LetStmt("r", FnCallExpr("f", [Lit(k)]))]
  }

  lemma FewRuns(env: Env, x: string, k: int)
    requires x in {"x", "y"} && 6 <= env.maxSteps && env.maxDepth > 0
    ensures EndsWith(Run(env, FewProgram(x, k)), "r", if x == "x" then IntValue(k) else Null)
  {
    hide *;
    var fn, call := Second(x), FnCallExpr("f", [Lit(k)]);
    var c := WithFn(fn);
    var e := After(c, 3);
    var v := if x == "x" then IntValue(k) else Null;
    var inner := e.(depth := 1, scope := map["x" := IntValue(k), "y" := Null]);
    FewParts(x, k);
    Defining(env, fn, [LetStmt("r", call)]);
    OnlyOne(env, LetStmt("r", call), c);
    LitMeans(k, c.scope);
    Integers(k, k);
    AfterTwice(inner, 1, 1);
    AfterTwice(c, 1, 1);
    AfterTwice(c, 2, 1);
    AfterKeeps(c, 1);
    AfterKeeps(c, 2);
    AfterKeeps(c, 3);
    VariableGives(env, x, After(inner, 1));
    ReturnGives(env, VarRef(x), inner, v, After(inner, 2));
    OnlyOne(env, ReturnStmt(Some(VarRef(x))), inner);
    BodyReturns(env, fn, [IntValue(k)], e, v, 2);
    ExpressionsMeanTheirMathematics(env, Lit(k), After(c, 2));
    AllOfOne(env, Lit(k), After(c, 2));
    CallGoes(env, "f", fn, [Lit(k)], After(c, 1), [IntValue(k)], e);
    LetGives(env, "r", call, c, v, After(e, 2));
    WithEnds(Run(env, FewProgram(x, k)), After(e, 2), "r", v);
  }

  lemma FewParts(x: string, k: int)
    requires x in {"x", "y"}
    ensures var fn := Second(x);
      && fn.name == "f" && "f" !in UTILITIES && fn.params == ["x", "y"] && fn.body == [ReturnStmt(Some(VarRef(x)))]
      && FewProgram(x, k) == [FnDef(fn.name, fn.params, fn.body)] + [LetStmt("r", FnCallExpr("f", [Lit(k)]))]
    ensures Bind(map[], ["x", "y"], [IntValue(k)]) == map["x" := IntValue(k), "y" := Null]
  {
    var one, two := map["x" := IntValue(k)], map["x" := IntValue(k), "y" := Null];
    assert one["y" := Null] == two && ["y"][1..] == [];
    assert Bind(two, [], []) == two;
    assert Bind(one, ["y"], []) == two;
    assert ["x", "y"][1..] == ["y"] && [IntValue(k)][1..] == [];
    assert map[]["x" := IntValue(k)] == one;
  }

  /** Arguments go to parameters in order, and a parameter without one is null. */
  lemma MissingArgumentsAreNull(env: Env, x: string, k: int)
    requires x in {"x", "y"} && Run(env, FewProgram(x, k)).ctx.steps <= env.maxSteps && env.maxDepth > 0
    ensures EndsWith(Run(env, FewProgram(x, k)), "r", if x == "x" then IntValue(k) else Null)
  {
    hide *;
    SameBeyond(env, FewProgram(x, k), 6);
    LargerLimit(env, 6);
    FewRuns(Limited(env, env.maxSteps + 6), x, k);
  }

  // ----- names -----

  /** `fn f() { return k }`, and `let r = f()` or the command `let r = f`. */
  function NameProgram(k: int, call: bool): seq<Stmt> {
    [FnDef("f", [], [ReturnStmt(Some(Lit(k)))]),
     LetStmt("r", if call then FnCallExpr("f", []) else PipelineExpr([Command("f", [])]))]
  }

  lemma NameParts(k: int)
    ensures NameProgram(k, true) == [FnDef("f", [], [ReturnStmt(Some(Lit(k)))])] + [LetStmt("r", FnCallExpr("f", []))]
    ensures "f" !in UTILITIES
  {
  }

  lemma CallRuns(env: Env, k: int)
    requires 5 <= env.maxSteps && env.maxDepth > 0
    ensures EndsWith(Run(env, NameProgram(k, true)), "r", IntValue(k))
  {
    hide *;
    var fn, call := Fn("f", [], [ReturnStmt(Some(Lit(k)))]), FnCallExpr("f", []);
    var c := WithFn(fn);
    var e := After(c, 2);
    var inner := e.(depth := 1, scope := Bind(e.scope, [], []));
    Defining(env, fn, [LetStmt("r", call)]);
    NameParts(k);
    LitMeans(k, inner.scope);
    Integers(k, k);
    AfterKeeps(c, 1);
    AfterKeeps(c, 2);
    AfterTwice(c, 1, 1);
    PlainReturn(env, Lit(k), inner);
    OnlyOne(env, ReturnStmt(Some(Lit(k))), inner);
    BodyReturns(env, fn, [], e, IntValue(k), 2);
    NoValues(env, After(c, 2));
    CallGoes(env, "f", fn, [], After(c, 1), [], e);
    LetGives(env, "r", call, c, IntValue(k), After(e, 2));
    OnlyOne(env, LetStmt("r", call), c);
    WithEnds(Run(env, NameProgram(k, true)), After(e, 2), "r", IntValue(k));
  }

  /** In a call a script's function comes before a builtin of its name. */
  lemma CallsPreferFunctions(env: Env, k: int)
    requires Run(env, NameProgram(k, true)).ctx.steps <= env.maxSteps && env.maxDepth > 0
    ensures EndsWith(Run(env, NameProgram(k, true)), "r", IntValue(k))
  {
    hide *;
    SameBeyond(env, NameProgram(k, true), 5);
    LargerLimit(env, 5);
    CallRuns(Limited(env, env.maxSteps + 5), k);
  }

  lemma CommandRuns(env: Env, k: int)
    requires 4 <= env.maxSteps && "f" in env.builtins
    requires var e := env.command("f", Null, [], [], env.workspace, [], 0); e.answer.Gives?
    ensures EndsWith(Run(env, NameProgram(k, false)), "r",
                     env.command("f", Null, [], [], env.workspace, [], 0).answer.value)
  {
    var fn, command := Fn("f", [], [ReturnStmt(Some(Lit(k)))]), Command("f", []);
    var c := WithFn(fn);
    var out := env.command("f", Null, [], [], env.workspace, [], 0);
    Defining(env, fn, [LetStmt("r", PipelineExpr([command]))]);
    assert NameProgram(k, false) == [FnDef(fn.name, fn.params, fn.body)] + [LetStmt("r", PipelineExpr([command]))];
    var d := After(c, 2);
    BuiltinCommand(env, "f", d);
    var r := CallBuiltin(env, "f", Null, [], After(d, 1));
    assert r.Got? && r.value == out.answer.value;
    assert [command] + [] == [command];
    hide Exec, Eval, Block, RunCommand, Pipeline, CallBuiltin, Debt, Credit;
    PipeGoes(env, command, [], Null, d, r.value, r.ctx);
    PipeEnds(env, r.value, r.ctx);
    PipelineEvals(env, [command], After(c, 1), r.value, r.ctx);
    LetGives(env, "r", PipelineExpr([command]), c, r.value, r.ctx);
    OnlyOne(env, LetStmt("r", PipelineExpr([command])), c);
  }

  lemma PipelineEvals(env: Env, commands: seq<Command>, c: Ctx, v: Value, d: Ctx)
    requires c.steps < env.maxSteps && Pipeline(env, commands, Null, After(c, 1)) == Got(v, d)
    ensures Eval(env, PipelineExpr(commands), c) == Got(v, d)
  {
    hide Pipeline, Debt, Credit;
    assert Tick(env, c) == Got((), After(c, 1));
  }

  lemma BuiltinCommand(env: Env, name: string, c: Ctx)
    requires name in env.builtins && name != CALL && c.steps < env.maxSteps
    ensures RunCommand(env, Command(name, []), Null, c) == Wrapped(name, CallBuiltin(env, name, Null, [], After(c, 1)))
  {
    assert Tick(env, c) == Got((), After(c, 1));
    NoValues(env, After(c, 1));
    hide EvalAll, CallBuiltin, CallUser, Wrapped, Debt, Credit;
    assert RunCommand(env, Command(name, []), Null, c) == Dispatch(env, name, [], Null, After(c, 1));
  }

  /** As a command a builtin comes before a script's function of its name. */
  lemma CommandsPreferBuiltins(env: Env, k: int)
    requires Run(env, NameProgram(k, false)).ctx.steps <= env.maxSteps && "f" in env.builtins
    requires var e := env.command("f", Null, [], [], env.workspace, [], 0); e.answer.Gives?
    ensures EndsWith(Run(env, NameProgram(k, false)), "r",
                     env.command("f", Null, [], [], env.workspace, [], 0).answer.value)
  {
    hide *;
    SameBeyond(env, NameProgram(k, false), 4);
    LargerLimit(env, 4);
    CommandRuns(Limited(env, env.maxSteps + 4), k);
  }

  // ----- operands that are no truth values -----

  /** `let r = a or b` and `let s = a and b`. */
  function EitherProgram(a: int, b: int): seq<Stmt> {
    [LetStmt("r", BinOp(Lit(a), OrOp, Lit(b))), LetStmt("s", BinOp(Lit(a), AndOp, Lit(b)))]
  }

  lemma IntegerTruth(a: int, heap: Heap)
    ensures Truthy(IntValue(a), heap) == (a != 0)
  {
  }

  lemma EitherGives(env: Env, x: string, op: BinaryOp, a: int, b: int, c: Ctx)
    requires op in {AndOp, OrOp} && c.steps + 4 <= env.maxSteps
    ensures var r := Exec(env, LetStmt(x, BinOp(Lit(a), op, Lit(b))), c);
      && r.Got? && r.value.Next? && r.ctx.steps <= c.steps + 4
      && r.ctx.scope == c.scope[x := IntValue(if (a != 0) == (op == AndOp) then b else a)]
  {
    hide *;
    LitMeans(a, c.scope);
    LitMeans(b, c.scope);
    Integers(a, b);
    IntegerTruth(a, c.heap);
    AfterKeeps(c, 1);
    AfterKeeps(c, 2);
    AfterKeeps(c, 3);
    AfterKeeps(c, 4);
    AfterTwice(c, 1, 1);
    AfterTwice(c, 2, 1);
    AfterTwice(c, 3, 1);
    WithKeeps(After(c, 3), x, IntValue(a));
    WithKeeps(After(c, 4), x, IntValue(b));
    ExpressionsMeanTheirMathematics(env, Lit(a), After(c, 2));
    ShortGives(env, Lit(a), op, Lit(b), After(c, 1), IntValue(a), After(c, 3));
    if (a != 0) == (op == AndOp) {
      ExpressionsMeanTheirMathematics(env, Lit(b), After(c, 3));
      LetGives(env, x, BinOp(Lit(a), op, Lit(b)), c, IntValue(b), After(c, 4));
    } else {
      LetGives(env, x, BinOp(Lit(a), op, Lit(b)), c, IntValue(a), After(c, 3));
    }
  }

  lemma EitherRuns(env: Env, a: int, b: int)
    requires 8 <= env.maxSteps
    ensures var r := Run(env, EitherProgram(a, b));
      && EndsWith(r, "r", IntValue(if a != 0 then a else b)) && EndsWith(r, "s", IntValue(if a != 0 then b else a))
  {
    var first, second := LetStmt("r", BinOp(Lit(a), OrOp, Lit(b))), LetStmt("s", BinOp(Lit(a), AndOp, Lit(b)));
    assert EitherProgram(a, b) == [first] + [second];
    hide Exec, Block;
    EitherGives(env, "r", OrOp, a, b, START);
    var c := Exec(env, first, START).ctx;
    EitherGives(env, "s", AndOp, a, b, c);
    InOrder(env, first, [second], START);
    OnlyOne(env, second, c);
  }

  /** `or` gives its left operand if that is true and else its right one, and `and` the other way round. */
  lemma OperandsAreGiven(env: Env, a: int, b: int)
    requires Run(env, EitherProgram(a, b)).ctx.steps <= env.maxSteps
    ensures var r := Run(env, EitherProgram(a, b));
      && EndsWith(r, "r", IntValue(if a != 0 then a else b)) && EndsWith(r, "s", IntValue(if a != 0 then b else a))
  {
    hide *;
    SameBeyond(env, EitherProgram(a, b), 8);
    LargerLimit(env, 8);
    EitherRuns(Limited(env, env.maxSteps + 8), a, b);
  }

  // ----- the end of a script -----

  /** `let a = k`, `return`, `let a = j`. */
  function ReturnProgram(k: int, j: int): seq<Stmt> {
    [LetStmt("a", Lit(k)), ReturnStmt(None), LetStmt("a", Lit(j))]
  }

  /** A `return` outside functions ends the script. */
  lemma ReturnEndsTheScript(env: Env, k: int, j: int)
    requires Run(env, ReturnProgram(k, j)).ctx.steps <= env.maxSteps
    ensures var r := Run(env, ReturnProgram(k, j));
      r.Got? && r.value == Return(Null) && r.ctx.scope == map["a" := IntValue(k)]
  {
    hide *;
    SameBeyond(env, ReturnProgram(k, j), 3);
    LargerLimit(env, 3);
    ReturnRuns(Limited(env, env.maxSteps + 3), k, j);
  }

  lemma ReturnRuns(env: Env, k: int, j: int)
    requires 3 <= env.maxSteps
    ensures var r := Run(env, ReturnProgram(k, j));
      r.Got? && r.value == Return(Null) && r.ctx.scope == map["a" := IntValue(k)]
  {
    var first, last := LetStmt("a", Lit(k)), LetStmt("a", Lit(j));
    var c := With(After(START, 2), "a", IntValue(k));
    assert ReturnProgram(k, j) == [first] + ([ReturnStmt(None)] + [last]);
    LitMeans(k, START.scope);
    assert Tick(env, c) == Got((), After(c, 1));
    assert Exec(env, ReturnStmt(None), c) == Got(Return(Null), After(c, 1)) by { hide Debt, Credit; }
    assert START.scope["a" := IntValue(k)] == map["a" := IntValue(k)];
    hide Exec, Block, Meaning, Cost, Debt, Credit;
    PlainLet(env, "a", Lit(k), START);
    InOrder(env, first, [ReturnStmt(None)] + [last], START);
    InOrder(env, ReturnStmt(None), [last], c);
  }
}
