/** How many steps a script can take and how many builtins it can call, whatever it catches. */
module Budget {
  import opened Wrappers
  import opened Syntax
  import opened Values
  import opened Interpretation
  import opened Conduct
  import opened Fuel

  /** A run ended by the step limit. */
  predicate HitsLimit<T>(r: Out<T>) {
    r.Raised? && r.fault.StepLimit?
  }

  /** Whatever a program recurses into, imports, grows while it loops over it, or catches: it stops;
      it takes at most twice the limit and one more step; and it calls at most as many builtins and
      utilities as the limit, less one for each step-limit error it catches. */
  lemma StepsAreBounded(env: Env, program: seq<Stmt>)
    ensures var n := env.maxSteps; var r := Run(env, program);
      && r.ctx.steps <= 2 * n + 1
      && r.ctx.calls + r.ctx.caught <= In(n, r.ctx) <= n
      && r.ctx.depth == 0
  {
    var n, r := env.maxSteps, Run(env, program);
    assert Fair(n, 0, START, r);
  }

  /** The account of a run past its limit: each step there is a step-limit error raised, and each of
      them but perhaps the last has been caught. */
  lemma StepsPastTheLimit(env: Env, program: seq<Stmt>)
    ensures var n := env.maxSteps; var r := Run(env, program);
      var raised := r.ctx.caught + (if HitsLimit(r) then 1 else 0);
      && (r.ctx.steps <= n <==> raised == 0)
      && (r.ctx.steps > n ==> r.ctx.steps == n + raised)
  {
    var n, r := env.maxSteps, Run(env, program);
    assert Fair(n, 0, START, r);
  }

  /** A program without `try`, of which neither does anything it can import have one, takes at most
      one step past its limit, which ends it; it catches nothing, and no builtin or utility is called
      past the limit.  Without imports the program's own text is all there is to check. */
  lemma WithoutTry(env: Env, program: seq<Stmt>, imports: bool)
    requires BlockTryFree(program, imports) && (imports ==> Trusted(env))
    ensures var n := env.maxSteps; var r := Run(env, program);
      && r.ctx.steps <= n + 1
      && (r.ctx.steps == n + 1 <==> HitsLimit(r))
      && r.ctx.caught == 0 && r.ctx.late == 0
  {
    BlockKept(env, _ => true, imports, program, START);
    assert Fair(env.maxSteps, 0, START, Run(env, program));
  }

  /** In any program, calls past the limit come only after a catch of the step limit. */
  lemma LateCallsFollowACatch(env: Env, program: seq<Stmt>)
    ensures var r := Run(env, program); r.ctx.late > 0 ==> r.ctx.caught > 0
  {
    BlockKept(env, _ => true, false, program, START);
  }

  // ----- the bound is reached -----

  /** `n` nested tries, each of whose handlers takes a step. */
  function NestedTry(n: nat): Stmt {
    if n == 0 then ExprStmt(NullLit) else TryCatch([NestedTry(n - 1)], "e", [ExprStmt(NullLit)])
  }

  lemma {:induction false} PastTheLimit(env: Env, s: Stmt, c: Ctx)
    requires c.steps >= env.maxSteps
    ensures Exec(env, s, c) == Raised(StepLimit(env.maxSteps), c.(steps := c.steps + 1))
    ensures Block(env, [s], c) == Exec(env, s, c)
  {
  }

  lemma {:induction false} NestedTryHits(env: Env, k: nat, c: Ctx)
    requires c.steps + k == env.maxSteps
    ensures var r := Exec(env, NestedTry(k), c);
      HitsLimit(r) && r.ctx.steps == env.maxSteps + k + 1 && r.ctx.caught == c.caught + k
    ensures Block(env, [NestedTry(k)], c) == Exec(env, NestedTry(k), c)
    decreases k
  {
    if k == 0 {
      PastTheLimit(env, NestedTry(0), c);
    } else {
      var d := Tick(env, c).ctx;
      NestedTryHits(env, k - 1, d);
      var r := Block(env, [NestedTry(k - 1)], d);
      PastTheLimit(env, ExprStmt(NullLit), Caught("e", r.fault, r.ctx));
      TryOf(env, [NestedTry(k - 1)], "e", [ExprStmt(NullLit)], c);
    }
  }

  lemma TryOf(env: Env, body: seq<Stmt>, x: string, handler: seq<Stmt>, c: Ctx)
    requires c.steps < env.maxSteps
    ensures var s := TryCatch(body, x, handler);
      && Exec(env, s, c) == ExecTry(env, body, x, handler, Tick(env, c).ctx)
      && (Exec(env, s, c).Raised? ==> Block(env, [s], c) == Exec(env, s, c))
  {
    hide ExecTry;
  }

  /** The bound cannot be improved: for every limit some program takes exactly that many steps. */
  lemma BoundIsReached(env: Env)
    ensures Run(env, [NestedTry(env.maxSteps)]).ctx.steps == 2 * env.maxSteps + 1
  {
    NestedTryHits(env, env.maxSteps, START);
  }

  // ----- a reached `try` breaks the limit -----

  lemma {:induction false} BlockAfter(env: Env, prefix: seq<Stmt>, more: seq<Stmt>, c: Ctx, d: Ctx)
    requires Block(env, prefix, c) == Got(Next, d)
    ensures Block(env, prefix + more, c) == Block(env, more, d)
    decreases |prefix|
  {
    hide Exec, Debt, Credit;
    if prefix == [] {
      assert prefix + more == more;
    } else {
      assert (prefix + more)[0] == prefix[0] && (prefix + more)[1..] == prefix[1..] + more;
      BlockAfter(env, prefix[1..], more, Exec(env, prefix[0], c).ctx, d);
    }
  }

  lemma BlockPastTheLimit(env: Env, b: seq<Stmt>, c: Ctx)
    requires c.steps >= env.maxSteps && b != []
    ensures Block(env, b, c) == Raised(StepLimit(env.maxSteps), c.(steps := c.steps + 1))
  {
    PastTheLimit(env, b[0], c);
    hide Exec;
  }

  lemma LastStepTries(env: Env, body: seq<Stmt>, x: string, handler: seq<Stmt>, rest: seq<Stmt>, c: Ctx)
    requires c.steps + 1 == env.maxSteps && body != []
    ensures Block(env, [TryCatch(body, x, handler)] + rest, c).ctx.steps
         == env.maxSteps + (if handler == [] && rest == [] then 1 else 2)
  {
    var d := Tick(env, c).ctx;
    BlockPastTheLimit(env, body, d);
    var caught := Caught(x, StepLimit(env.maxSteps), d.(steps := d.steps + 1));
    if handler != [] { BlockPastTheLimit(env, handler, caught); }
    if rest != [] { BlockPastTheLimit(env, rest, caught); }
    TryOf(env, body, x, handler, c);
    assert ExecTry(env, body, x, handler, d) == Block(env, handler, caught);
    hide ExecTry, Exec;
    assert ([TryCatch(body, x, handler)] + rest)[1..] == rest;
  }

  /** Where a program comes to a `try`, the guard of `WithoutTry` is needed: with a limit that the `try`
      itself just meets, the run goes two steps past it, unless nothing comes after the catch. */
  lemma ReachedTryGoesPast(env: Env, prefix: seq<Stmt>, body: seq<Stmt>, x: string, handler: seq<Stmt>, rest: seq<Stmt>)
    requires Run(env, prefix).ctx.steps <= env.maxSteps && body != []
    requires Run(env, prefix).Got? && Run(env, prefix).value.Next?
    ensures var n := Run(env, prefix).ctx.steps + 1;
      Run(Limited(env, n), prefix + ([TryCatch(body, x, handler)] + rest)).ctx.steps
        == n + (if handler == [] && rest == [] then 1 else 2)
  {
    hide Block, Credit, Debt;
    var n, c := Run(env, prefix).ctx.steps + 1, Run(env, prefix).ctx;
    var small := Limited(env, n);
    assert Limited(small, env.maxSteps) == env;
    if n <= env.maxSteps {
      LargerBudgetChangesNothing(small, env.maxSteps, prefix);
    } else {
      LargerBudgetChangesNothing(env, n, prefix);
    }
    assert Run(small, prefix) == Got(Next, c);
    BlockAfter(small, prefix, [TryCatch(body, x, handler)] + rest, START, c);
    LastStepTries(small, body, x, handler, rest, c);
  }

  // ----- builtins past the limit -----

  /** A function that swallows every script error. */
  const SWALLOW: Fn := Fn("f", [], [TryCatch([ExprStmt(NullLit)], "e", [])])

  lemma SwallowedLimit(env: Env, c: Ctx)
    requires c.steps + 1 == env.maxSteps && c.depth < env.maxDepth
    ensures var r := CallUser(env, SWALLOW, [], Null, c);
      r == Got(Null, c.(steps := c.steps + 2, caught := c.caught + 1))
  {
    var entered := c.(depth := c.depth + 1);
    var d := Tick(env, entered).ctx;
    PastTheLimit(env, ExprStmt(NullLit), d);
    var body := [ExprStmt(NullLit)];
    assert ExecTry(env, body, "e", [], d) == Got(Next, Caught("e", StepLimit(env.maxSteps), d.(steps := d.steps + 1)));
    TryOf(env, body, "e", [], entered);
    BlockOfOne(env, TryCatch(body, "e", []), entered);
  }

  lemma BlockOfOne(env: Env, s: Stmt, c: Ctx)
    ensures var r := Exec(env, s, c); Block(env, [s], c) == r
  {
    hide Exec;
    var r := Exec(env, s, c);
    if r.Got? && r.value.Next? { assert Block(env, [], r.ctx) == Got(Next, r.ctx); }
  }

  /** `fn f() { try { null } catch e { } }` and then `echo(f())`. */
  const ECHO := FnCallExpr("echo", [FnCallExpr("f", [])])

  function DefineF(): Stmt {
    FnDef("f", [], SWALLOW.body)
  }

  /** With a limit of five the run goes past it inside `f`, which swallows the error, and `echo` is
      called all the same. */
  lemma BuiltinPastTheLimit(env: Env)
    requires env.maxSteps == 5 && env.maxDepth > 0 && "echo" in env.builtins
    ensures var r := Run(env, [DefineF(), ExprStmt(ECHO)]); r.ctx.late == 1 && r.ctx.caught == 1 && r.ctx.steps == 6
  {
    hide *;
    RunIsBlock(env, [DefineF(), ExprStmt(ECHO)]);
    DefinesF(env);
    DefinedFacts();
    EchoAfter(env, DefineF(), START, Defined());
  }

  lemma RunIsBlock(env: Env, program: seq<Stmt>)
    ensures Run(env, program) == Block(env, program, START)
  {
  }

  function Defined(): Ctx {
    START.(steps := 1, functions := map["f" := SWALLOW])
  }

  lemma DefinedFacts()
    ensures var d := Defined();
      && d.steps == 1 && d.depth == 0 && d.late == 0 && d.caught == 0
      && "echo" !in d.functions && "f" in d.functions && d.functions["f"] == SWALLOW
  {
  }

  lemma DefinesF(env: Env)
    requires env.maxSteps > 0
    ensures Exec(env, DefineF(), START) == Got(Next, Defined())
  {
    assert START.functions["f" := SWALLOW] == map["f" := SWALLOW];
  }

  lemma EchoAfter(env: Env, define: Stmt, c: Ctx, d: Ctx)
    requires Exec(env, define, c) == Got(Next, d) && d.late == 0
    requires env.maxSteps == d.steps + 4 && d.depth < env.maxDepth
    requires "echo" in env.builtins && "echo" !in d.functions && "f" in d.functions && d.functions["f"] == SWALLOW
    ensures var r := Block(env, [define, ExprStmt(ECHO)], c);
      r.ctx.late == 1 && r.ctx.caught == d.caught + 1 && r.ctx.steps == env.maxSteps + 1
  {
    hide Exec, Block, Eval, CallBuiltin;
    BlockOfTwo(env, define, ExprStmt(ECHO), c, d);
    EchoPastTheLimit(env, Tick(env, d).ctx);
    EchoIsLate(env, d);
  }

  lemma BlockOfTwo(env: Env, s: Stmt, t: Stmt, c: Ctx, d: Ctx)
    requires Exec(env, s, c) == Got(Next, d)
    ensures Block(env, [s, t], c) == Exec(env, t, d)
  {
    hide Exec;
    assert [s, t][1..] == [t];
    BlockOfOne(env, t, d);
  }

  lemma EchoIsLate(env: Env, c: Ctx)
    requires c.steps < env.maxSteps && c.late == 0
    requires var d := Tick(env, c).ctx;
      var e := d.(steps := env.maxSteps + 1, caught := d.caught + 1);
      Eval(env, ECHO, d) == CallBuiltin(env, "echo", Null, [Null], e)
    ensures var r := Exec(env, ExprStmt(ECHO), c);
      r.ctx.late == 1 && r.ctx.caught == c.caught + 1 && r.ctx.steps == env.maxSteps + 1
  {
    hide Eval;
  }

  lemma EchoPastTheLimit(env: Env, c: Ctx)
    requires env.maxSteps == c.steps + 3 && c.depth < env.maxDepth
    requires "echo" in env.builtins && "echo" !in c.functions && "f" in c.functions && c.functions["f"] == SWALLOW
    ensures var d := c.(steps := env.maxSteps + 1, caught := c.caught + 1);
      Eval(env, ECHO, c) == CallBuiltin(env, "echo", Null, [Null], d)
  {
    hide CallUser, CallBuiltin;
    var d := Tick(env, c).ctx;
    SwallowingCall(env, d);
    AllOfOne(env, FnCallExpr("f", []), d);
  }

  lemma SwallowingCall(env: Env, c: Ctx)
    requires c.steps + 2 == env.maxSteps && c.depth < env.maxDepth
    requires "f" in c.functions && c.functions["f"] == SWALLOW
    ensures Eval(env, FnCallExpr("f", []), c) == Got(Null, c.(steps := c.steps + 3, caught := c.caught + 1))
  {
    hide CallUser;
    var d := Tick(env, c).ctx;
    assert EvalAll(env, [], d) == Got([], d);
    SwallowedLimit(env, d);
  }

  // ----- a loop over a list its body grows -----

  const GROW := ExprStmt(FnCallExpr("append", [VarRef("xs"), NullLit]))

  /** The variable `xs` holds a list. */
  predicate Growing(c: Ctx, ref: nat) {
    "xs" in c.scope && c.scope["xs"] == List(ref) && ref < |c.heap| && c.heap[ref].Items?
  }

  lemma EvalsBothOrStops(env: Env, ref: nat, c: Ctx)
    requires Growing(c, ref)
    ensures var r := EvalAll(env, [VarRef("xs"), NullLit], c);
      HitsLimit(r) || r == Got([List(ref), Null], c.(steps := c.steps + 2))
  {
    AllOfTwo(env, VarRef("xs"), NullLit, c);
    hide EvalAll;
  }

  lemma AppendsOrStops(env: Env, ref: nat, c: Ctx)
    requires Growing(c, ref)
    ensures var r := EvalCall(env, "append", [VarRef("xs"), NullLit], c);
      HitsLimit(r) || (r.Got? && r.value == List(ref) && Grown(c, r.ctx, ref))
  {
    EvalsBothOrStops(env, ref, c);
    hide EvalAll;
  }

  /** The list of `xs` is one item longer. */
  predicate Grown(c: Ctx, d: Ctx, ref: nat)
    requires Growing(c, ref)
  {
    Growing(d, ref) && |d.heap[ref].items| == |c.heap[ref].items| + 1
  }

  /** A turn of the loop appends one item, or is stopped by the step limit. */
  lemma GrowsOrStops(env: Env, ref: nat, c: Ctx)
    requires Growing(c, ref)
    ensures var r := Block(env, [GROW], c);
      HitsLimit(r) || (r.Got? && r.value.Next? && Grown(c, r.ctx, ref))
  {
    hide Block, EvalCall;
    BlockOfOne(env, GROW, c);
    var t := Tick(env, c);
    if t.Got? {
      var u := Tick(env, t.ctx);
      if u.Got? { AppendsOrStops(env, ref, u.ctx); }
      var call := FnCallExpr("append", [VarRef("xs"), NullLit]);
      assert Eval(env, call, t.ctx) ==
        if u.Got? then EvalCall(env, "append", call.args, u.ctx) else Raised(StepLimit(env.maxSteps), u.ctx);
      assert Exec(env, GROW, c) == ExecExpr(env, call, t.ctx);
    }
  }

  lemma {:induction false} LoopStops(env: Env, ref: nat, i: nat, c: Ctx)
    requires Growing(c, ref) && i < |c.heap[ref].items|
    ensures HitsLimit(Loop(env, "x", Live(ref), i, [GROW], c))
    decreases Left(env, c)
  {
    hide Block;
    var t := Tick(env, c);
    if t.Got? {
      var d := t.ctx.(scope := t.ctx.scope["x" := c.heap[ref].items[i]]);
      GrowsOrStops(env, ref, d);
      var r := Block(env, [GROW], d);
      if r.Got? { LoopStops(env, ref, i + 1, r.ctx); }
    }
  }

  /** A loop over a list that each turn lengthens is ended by the step limit and by nothing else,
      whatever the limit. */
  lemma GrowingLoopHitsTheLimit(env: Env, c: Ctx, ref: nat)
    requires Growing(c, ref) && c.heap[ref].items != []
    ensures HitsLimit(Exec(env, ForStmt("x", VarRef("xs"), [GROW]), c))
  {
    hide Loop;
    var t := Tick(env, c);
    if t.Got? {
      var r := Eval(env, VarRef("xs"), t.ctx);
      if r.Got? { LoopStops(env, ref, 0, r.ctx); }
    }
  }
}
