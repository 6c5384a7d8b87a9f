/** The step limit only ever stops a run: two limits that a run stays within give the same run. */
module Fuel {
  import opened Wrappers
  import opened Syntax
  import opened Values
  import opened Interpretation

  function Limited(env: Env, m: nat): Env {
    env.(maxSteps := m)
  }

  /** The run stayed within both limits, so neither was ever raised, not even to be caught. */
  ghost predicate Within<T>(env: Env, m: nat, r: Out<T>) {
    r.ctx.steps <= env.maxSteps && r.ctx.steps <= m
  }

  lemma {:induction false} ExecSame(env: Env, m: nat, s: Stmt, c: Ctx)
    requires Within(env, m, Exec(env, s, c))
    ensures Exec(Limited(env, m), s, c) == Exec(env, s, c)
    decreases Left(env, c), 0
  {
    hide Debt, Credit, Eval, Block, ExecLet, ExecAssign, ExecIf, ExecFor, ExecTry, ExecImport;
    var t := Tick(env, c);
    if t.Got? {
      match s
      case LetStmt(x, e) => LetSame(env, m, x, e, t.ctx);
      case AssignStmt(place, e) => AssignSame(env, m, place, e, t.ctx);
      case IfStmt(cond, body, elifs, els) => IfSame(env, m, cond, body, elifs, els, t.ctx);
      case ForStmt(x, e, body) => ForSame(env, m, x, e, body, t.ctx);
      case FnDef(_, _, _) =>
      case ReturnStmt(e) => ReturnSame(env, m, e, t.ctx);
      case TryCatch(body, x, handler) => TrySame(env, m, body, x, handler, t.ctx);
      case ImportStmt(path) => ImportSame(env, m, path, t.ctx);
      case ExprStmt(e) => ExprSame(env, m, e, t.ctx);
    }
  }

  lemma {:induction false} BlockSame(env: Env, m: nat, stmts: seq<Stmt>, c: Ctx)
    requires Within(env, m, Block(env, stmts, c))
    ensures Block(Limited(env, m), stmts, c) == Block(env, stmts, c)
    decreases Left(env, c), |stmts|
  {
    hide Debt, Credit, Exec;
    if stmts != [] {
      var first := Exec(env, stmts[0], c);
      ExecSame(env, m, stmts[0], c);
      if first.Got? && first.value.Next? { BlockSame(env, m, stmts[1..], first.ctx); }
    }
  }

  lemma {:induction false} AssignSame(env: Env, m: nat, place: Expr, e: Expr, c: Ctx)
    requires Within(env, m, ExecAssign(env, place, e, c))
    ensures ExecAssign(Limited(env, m), place, e, c) == ExecAssign(env, place, e, c)
    decreases Left(env, c)
  {
    hide Debt, Credit, Eval, AssignTo;
    var r := Eval(env, e, c);
    EvalSame(env, m, e, c);
    if r.Got? { PlaceSame(env, m, place, r.value, r.ctx); }
  }

  lemma {:induction false} PlaceSame(env: Env, m: nat, place: Expr, v: Value, c: Ctx)
    requires Within(env, m, AssignTo(env, place, v, c))
    ensures AssignTo(Limited(env, m), place, v, c) == AssignTo(env, place, v, c)
    decreases Left(env, c), 4
  {
    hide Debt, Credit;
    if place.IndexExpr? { StoreSame(env, m, place.obj, place.index, v, c); }
  }

  lemma {:induction false} StoreSame(env: Env, m: nat, o: Expr, i: Expr, v: Value, c: Ctx)
    requires Within(env, m, ExecStore(env, o, i, v, c))
    ensures ExecStore(Limited(env, m), o, i, v, c) == ExecStore(env, o, i, v, c)
    decreases Left(env, c), 3
  {
    hide Debt, Credit;
    EvalAllSame(env, m, [o, i], c);
  }

  lemma {:induction false} IfSame(env: Env, m: nat, cond: Expr, body: seq<Stmt>, elifs: seq<Elif>, els: Else, c: Ctx)
    requires Within(env, m, ExecIf(env, cond, body, elifs, els, c))
    ensures ExecIf(Limited(env, m), cond, body, elifs, els, c) == ExecIf(env, cond, body, elifs, els, c)
    decreases Left(env, c)
  {
    hide Debt, Credit;
    var r := Eval(env, cond, c);
    EvalSame(env, m, cond, c);
    if r.Got? {
      if Truthy(r.value, r.ctx.heap) { BlockSame(env, m, body, r.ctx); } else { ElifsSame(env, m, elifs, els, r.ctx); }
    }
  }

  lemma {:induction false} ElifsSame(env: Env, m: nat, elifs: seq<Elif>, els: Else, c: Ctx)
    requires Within(env, m, ExecElifs(env, elifs, els, c))
    ensures ExecElifs(Limited(env, m), elifs, els, c) == ExecElifs(env, elifs, els, c)
    decreases Left(env, c)
  {
    hide Debt, Credit;
    if elifs == [] {
      if els.Else? { BlockSame(env, m, els.otherwise, c); }
    } else {
      var r := Eval(env, elifs[0].test, c);
      EvalSame(env, m, elifs[0].test, c);
      if r.Got? {
        if Truthy(r.value, r.ctx.heap) { BlockSame(env, m, elifs[0].block, r.ctx); }
        else { ElifsSame(env, m, elifs[1..], els, r.ctx); }
      }
    }
  }

  lemma {:induction false} ForSame(env: Env, m: nat, x: string, e: Expr, body: seq<Stmt>, c: Ctx)
    requires Within(env, m, ExecFor(env, x, e, body, c))
    ensures ExecFor(Limited(env, m), x, e, body, c) == ExecFor(env, x, e, body, c)
    decreases Left(env, c)
  {
    hide Debt, Credit, Eval, Loop;
    var r := Eval(env, e, c);
    EvalSame(env, m, e, c);
    if r.Got? { LoopSame(env, m, x, ToWalk(env.py, r.value, r.ctx.heap), 0, body, r.ctx); }
  }

  lemma {:induction false} LoopSame(env: Env, m: nat, x: string, walk: Walk, i: nat, body: seq<Stmt>, c: Ctx)
    requires Within(env, m, Loop(env, x, walk, i, body, c))
    ensures Loop(Limited(env, m), x, walk, i, body, c) == Loop(env, x, walk, i, body, c)
    decreases Left(env, c)
  {
    hide Debt, Credit, Block;
    var items := Walked(walk, c.heap);
    var t := Tick(env, c);
    if i < |items| && t.Got? {
      var d := t.ctx.(scope := t.ctx.scope[x := items[i]]);
      var r := Block(env, body, d);
      BlockSame(env, m, body, d);
      if r.Got? && r.value.Next? { LoopSame(env, m, x, walk, i + 1, body, r.ctx); }
    }
  }

  lemma {:induction false} TrySame(env: Env, m: nat, body: seq<Stmt>, x: string, handler: seq<Stmt>, c: Ctx)
    requires Within(env, m, ExecTry(env, body, x, handler, c))
    ensures ExecTry(Limited(env, m), body, x, handler, c) == ExecTry(env, body, x, handler, c)
    decreases Left(env, c)
  {
    hide Debt, Credit, Block;
    var r := Block(env, body, c);
    BlockSame(env, m, body, c);
    if r.Raised? && !r.fault.OtherFault? { BlockSame(env, m, handler, Caught(x, r.fault, r.ctx)); }
  }

  lemma {:induction false} ImportSame(env: Env, m: nat, path: string, c: Ctx)
    requires Within(env, m, ExecImport(env, path, c))
    ensures ExecImport(Limited(env, m), path, c) == ExecImport(env, path, c)
    decreases Left(env, c)
  {
    hide Debt, Credit;
    if path !in c.imported {
      var d := c.(imported := c.imported + {path});
      match env.load(path, d.journal)
      case Loaded(program) => BlockSame(env, m, program, d);
      case _ =>
    }
  }

  lemma {:induction false} EvalSame(env: Env, m: nat, e: Expr, c: Ctx)
    requires Within(env, m, Eval(env, e, c))
    ensures Eval(Limited(env, m), e, c) == Eval(env, e, c)
    decreases Left(env, c), 0
  {
    hide Debt, Credit, EvalIndex, EvalBinary, EvalAll, Block;
    var t := Tick(env, c);
    if t.Got? {
      match e
      case ListLit(es) => ListSame(env, m, es, t.ctx);
      case MapLit(pairs) => MapSame(env, m, pairs, t.ctx);
      case IndexExpr(o, i) => IndexSame(env, m, o, i, t.ctx);
      case BinOp(l, op, r) => BinarySame(env, m, l, op, r, t.ctx);
      case UnaryOp(op, e) => PrefixSame(env, m, op, e, t.ctx);
      case FnCallExpr(f, args) => CallSame(env, m, f, args, t.ctx);
      case PipelineExpr(commands) => PipelineSame(env, m, commands, Null, t.ctx);
      case _ =>
    }
  }

  lemma {:induction false} EvalAllSame(env: Env, m: nat, es: seq<Expr>, c: Ctx)
    requires Within(env, m, EvalAll(env, es, c))
    ensures EvalAll(Limited(env, m), es, c) == EvalAll(env, es, c)
    decreases Left(env, c), |es|
  {
    hide Debt, Credit;
    if es != [] {
      var first := Eval(env, es[0], c);
      EvalSame(env, m, es[0], c);
      if first.Got? { EvalAllSame(env, m, es[1..], first.ctx); }
    }
  }

  lemma {:induction false} IndexSame(env: Env, m: nat, o: Expr, i: Expr, c: Ctx)
    requires Within(env, m, EvalIndex(env, o, i, c))
    ensures EvalIndex(Limited(env, m), o, i, c) == EvalIndex(env, o, i, c)
    decreases Left(env, c)
  {
    hide Debt, Credit;
    EvalAllSame(env, m, [o, i], c);
  }

  lemma {:induction false} BinarySame(env: Env, m: nat, l: Expr, op: BinaryOp, r: Expr, c: Ctx)
    requires Within(env, m, EvalBinary(env, l, op, r, c))
    ensures EvalBinary(Limited(env, m), l, op, r, c) == EvalBinary(env, l, op, r, c)
    decreases Left(env, c)
  {
    hide Debt, Credit;
    if op == AndOp || op == OrOp { ShortSame(env, m, l, op == AndOp, r, c); } else { EvalAllSame(env, m, [l, r], c); }
  }

  lemma {:induction false} ShortSame(env: Env, m: nat, l: Expr, goOn: bool, r: Expr, c: Ctx)
    requires Within(env, m, EvalShort(env, l, goOn, r, c))
    ensures EvalShort(Limited(env, m), l, goOn, r, c) == EvalShort(env, l, goOn, r, c)
    decreases Left(env, c), 2
  {
    hide Debt, Credit, Eval, EvalRight;
    var left := Eval(env, l, c);
    EvalSame(env, m, l, c);
    if left.Raised? {
      assert EvalShort(env, l, goOn, r, c) == left;
      assert EvalShort(Limited(env, m), l, goOn, r, c) == left;
    } else {
      assert EvalShort(env, l, goOn, r, c) == EvalRight(env, left.value, goOn, r, left.ctx);
      RightSame(env, m, left.value, goOn, r, left.ctx);
    }
  }

  lemma {:induction false} RightSame(env: Env, m: nat, left: Value, goOn: bool, r: Expr, c: Ctx)
    requires Within(env, m, EvalRight(env, left, goOn, r, c))
    ensures EvalRight(Limited(env, m), left, goOn, r, c) == EvalRight(env, left, goOn, r, c)
    decreases Left(env, c), 1
  {
    hide Debt, Credit;
    if Truthy(left, c.heap) == goOn { EvalSame(env, m, r, c); }
  }

  lemma {:induction false} PrefixSame(env: Env, m: nat, op: PrefixOp, e: Expr, c: Ctx)
    requires Within(env, m, EvalPrefix(env, op, e, c))
    ensures EvalPrefix(Limited(env, m), op, e, c) == EvalPrefix(env, op, e, c)
    decreases Left(env, c)
  {
    hide Debt, Credit;
    EvalSame(env, m, e, c);
  }

  lemma {:induction false} ListSame(env: Env, m: nat, es: seq<Expr>, c: Ctx)
    requires Within(env, m, EvalList(env, es, c))
    ensures EvalList(Limited(env, m), es, c) == EvalList(env, es, c)
    decreases Left(env, c)
  {
    hide Debt, Credit;
    EvalAllSame(env, m, es, c);
  }

  lemma {:induction false} MapSame(env: Env, m: nat, pairs: seq<Pair>, c: Ctx)
    requires Within(env, m, EvalMap(env, pairs, c))
    ensures EvalMap(Limited(env, m), pairs, c) == EvalMap(env, pairs, c)
    decreases Left(env, c)
  {
    hide Debt, Credit;
    EvalAllSame(env, m, Vals(pairs), c);
  }

  lemma {:induction false} TextSame(env: Env, m: nat, args: seq<Expr>, c: Ctx)
    requires Within(env, m, EvalToText(env, args, c))
    ensures EvalToText(Limited(env, m), args, c) == EvalToText(env, args, c)
    decreases Left(env, c)
  {
    hide Debt, Credit;
    if args != [] { EvalSame(env, m, args[0], c); }
  }

  lemma {:induction false} LetSame(env: Env, m: nat, x: string, e: Expr, c: Ctx)
    requires Within(env, m, ExecLet(env, x, e, c))
    ensures ExecLet(Limited(env, m), x, e, c) == ExecLet(env, x, e, c)
    decreases Left(env, c)
  {
    hide Debt, Credit;
    EvalSame(env, m, e, c);
  }

  lemma {:induction false} ReturnSame(env: Env, m: nat, e: Option<Expr>, c: Ctx)
    requires Within(env, m, ExecReturn(env, e, c))
    ensures ExecReturn(Limited(env, m), e, c) == ExecReturn(env, e, c)
    decreases Left(env, c)
  {
    hide Debt, Credit;
    if e.Some? { EvalSame(env, m, e.value, c); }
  }

  lemma {:induction false} ExprSame(env: Env, m: nat, e: Expr, c: Ctx)
    requires Within(env, m, ExecExpr(env, e, c))
    ensures ExecExpr(Limited(env, m), e, c) == ExecExpr(env, e, c)
    decreases Left(env, c)
  {
    hide Debt, Credit;
    EvalSame(env, m, e, c);
  }

  lemma {:induction false} CallSame(env: Env, m: nat, f: string, args: seq<Expr>, c: Ctx)
    requires Within(env, m, EvalCall(env, f, args, c))
    ensures EvalCall(Limited(env, m), f, args, c) == EvalCall(env, f, args, c)
    decreases Left(env, c)
  {
    hide Debt, Credit;
    var r := EvalAll(env, args, c);
    EvalAllSame(env, m, args, c);
    if r.Got? && f !in UTILITIES && f in r.ctx.functions { UserSame(env, m, r.ctx.functions[f], r.value, Null, r.ctx); }
  }

  lemma {:induction false} PipelineSame(env: Env, m: nat, commands: seq<Command>, stdin: Value, c: Ctx)
    requires Within(env, m, Pipeline(env, commands, stdin, c))
    ensures Pipeline(Limited(env, m), commands, stdin, c) == Pipeline(env, commands, stdin, c)
    decreases Left(env, c), |commands|
  {
    hide Debt, Credit;
    if commands != [] {
      var r := RunCommand(env, commands[0], stdin, c);
      CommandSame(env, m, commands[0], stdin, c);
      if r.Got? { PipelineSame(env, m, commands[1..], r.value, r.ctx); }
    }
  }

  lemma {:induction false} CommandSame(env: Env, m: nat, command: Command, stdin: Value, c: Ctx)
    requires Within(env, m, RunCommand(env, command, stdin, c))
    ensures RunCommand(Limited(env, m), command, stdin, c) == RunCommand(env, command, stdin, c)
    decreases Left(env, c), 0
  {
    hide Debt, Credit;
    var t := Tick(env, c);
    if t.Got? {
      var args := command.cmdArgs;
      if command.cmd == CALL {
        TextSame(env, m, args, t.ctx);
      } else {
        var r := EvalAll(env, args, t.ctx);
        EvalAllSame(env, m, args, t.ctx);
        if r.Got? { DispatchSame(env, m, command.cmd, r.value, stdin, r.ctx); }
      }
    }
  }

  lemma {:induction false} DispatchSame(env: Env, m: nat, name: string, args: seq<Value>, stdin: Value, c: Ctx)
    requires Within(env, m, Dispatch(env, name, args, stdin, c))
    ensures Dispatch(Limited(env, m), name, args, stdin, c) == Dispatch(env, name, args, stdin, c)
    decreases Left(env, c)
  {
    hide Debt, Credit;
    if name !in env.builtins && name in c.functions { UserSame(env, m, c.functions[name], args, stdin, c); }
  }

  lemma {:induction false} UserSame(env: Env, m: nat, fn: Fn, args: seq<Value>, stdin: Value, c: Ctx)
    requires Within(env, m, CallUser(env, fn, args, stdin, c))
    ensures CallUser(Limited(env, m), fn, args, stdin, c) == CallUser(env, fn, args, stdin, c)
    decreases Left(env, c), |fn.body| + 1
  {
    hide Debt, Credit, Block, Bind;
    if c.depth < env.maxDepth {
      var scope := Bind(c.scope, fn.params, args);
      var inner := if stdin.Null? then scope else scope[STDIN := stdin];
      BlockSame(env, m, fn.body, c.(depth := c.depth + 1, scope := inner));
    }
  }

  // ----- whole runs -----

  /** If a run stays within a limit, every larger limit gives the same run: output, variables,
      steps, database effects and all.  And a run under the larger limit that takes no more steps
      than the smaller one allows is already the run under the smaller one.  So whether a program
      stays within `n` steps does not depend on the limit it is run with. */
  lemma LargerBudgetChangesNothing(env: Env, m: nat, program: seq<Stmt>)
    requires env.maxSteps <= m
    ensures Run(env, program).ctx.steps <= env.maxSteps <==> Run(Limited(env, m), program).ctx.steps <= env.maxSteps
    ensures Run(env, program).ctx.steps <= env.maxSteps ==> Run(Limited(env, m), program) == Run(env, program)
  {
    if Run(env, program).ctx.steps <= env.maxSteps {
      BlockSame(env, m, program, START);
    }
    if Run(Limited(env, m), program).ctx.steps <= env.maxSteps {
      assert Limited(Limited(env, m), env.maxSteps) == env;
      BlockSame(Limited(env, m), env.maxSteps, program, START);
    }
  }
}
