/** What every run keeps, by one induction over the interpreter: it does to the database only what its
    builtins do, and without a `try` it catches nothing. */
module Conduct {
  import opened Wrappers
  import opened Syntax
  import opened Values
  import opened Interpretation

  // ----- programs without `try` -----

  /** No `try` in a program and, unless imports are trusted, no `import`. */
  predicate TryFree(s: Stmt, imports: bool)
    decreases s, 1
  {
    match s
    case IfStmt(_, body, elifs, els) =>
      && BlockTryFree(body, imports) && ElifsTryFree(elifs, imports)
      && (els.Else? ==> BlockTryFree(els.otherwise, imports))
    case ForStmt(_, _, body) => BlockTryFree(body, imports)
    case FnDef(_, _, body) => BlockTryFree(body, imports)
    case TryCatch(_, _, _) => false
    case ImportStmt(_) => imports
    case _ => true
  }

  predicate BlockTryFree(b: seq<Stmt>, imports: bool)
    decreases b, 0
  {
    forall i | 0 <= i < |b| :: TryFree(b[i], imports)
  }

  predicate ElifsTryFree(elifs: seq<Elif>, imports: bool)
    decreases elifs, 0
  {
    forall i | 0 <= i < |elifs| :: BlockTryFree(elifs[i].block, imports)
  }

  ghost predicate FnsTryFree(functions: map<string, Fn>, imports: bool) {
    forall f :: f in functions ==> BlockTryFree(functions[f].body, imports)
  }

  /** Nothing that can be imported has a `try`. */
  ghost predicate Trusted(env: Env) {
    forall path, deeds :: env.load(path, deeds).Loaded? ==> BlockTryFree(env.load(path, deeds).program, true)
  }

  // ----- what is done to the database -----

  ghost predicate All(rule: Deed -> bool, deeds: seq<Deed>) {
    forall i :: 0 <= i < |deeds| ==> rule(deeds[i])
  }

  /** Whatever the builtin commands do to the database, given the script's workspace, keeps a rule. */
  ghost predicate Obeys(env: Env, rule: Deed -> bool) {
    forall name, stdin, args, heap, deeds, web ::
      All(rule, env.command(name, stdin, args, heap, env.workspace, deeds, web).deeds)
  }

  // ----- what every construct keeps -----

  /** No error is in flight, and no call was made past the limit unless a step-limit error was caught. */
  ghost predicate Honest(n: nat, c: Ctx) {
    Debt(n, c) == 0 && (c.late > 0 ==> c.caught > 0)
  }

  /** From a context to an outcome: what is done to the database keeps the rule; if the construct is free of
      `try` (`ok`) and so are the functions defined, nothing is caught; and calls past the limit come
      only after a catch. */
  ghost predicate Kept<T>(env: Env, rule: Deed -> bool, imports: bool, ok: bool, c: Ctx, r: Out<T>) {
    && (Obeys(env, rule) && All(rule, c.journal) ==> All(rule, r.ctx.journal))
    && (ok && (imports ==> Trusted(env)) && FnsTryFree(c.functions, imports) ==>
          FnsTryFree(r.ctx.functions, imports) && r.ctx.caught == c.caught)
    && (Honest(env.maxSteps, c) ==> (r.ctx.late > 0 ==> r.ctx.caught > 0))
  }

  lemma {:induction false} ExecKept(env: Env, rule: Deed -> bool, imports: bool, s: Stmt, c: Ctx)
    ensures Kept(env, rule, imports, TryFree(s, imports), c, Exec(env, s, c))
    decreases Left(env, c), 0
  {
    hide All, Obeys, Trusted, FnsTryFree, Credit;
    var t := Tick(env, c);
    if t.Got? {
      match s
      case LetStmt(x, e) => LetKept(env, rule, imports, x, e, t.ctx);
      case AssignStmt(place, e) => AssignKept(env, rule, imports, place, e, t.ctx);
      case IfStmt(cond, body, elifs, els) => IfKept(env, rule, imports, cond, body, elifs, els, t.ctx);
      case ForStmt(x, e, body) => ForKept(env, rule, imports, x, e, body, t.ctx);
      case FnDef(name, params, body) => DefineKept(t.ctx.functions, imports, name, Fn(name, params, body));
      case ReturnStmt(e) => ReturnKept(env, rule, imports, e, t.ctx);
      case TryCatch(body, x, handler) => TryKept(env, rule, imports, body, x, handler, t.ctx);
      case ImportStmt(path) => ImportKept(env, rule, imports, path, t.ctx);
      case ExprStmt(e) => ExprKept(env, rule, imports, e, t.ctx);
    }
  }

  lemma DefineKept(functions: map<string, Fn>, imports: bool, name: string, fn: Fn)
    ensures FnsTryFree(functions, imports) && BlockTryFree(fn.body, imports) ==>
      FnsTryFree(functions[name := fn], imports)
  {
  }

  lemma {:induction false} BlockKept(env: Env, rule: Deed -> bool, imports: bool, stmts: seq<Stmt>, c: Ctx)
    ensures Kept(env, rule, imports, BlockTryFree(stmts, imports), c, Block(env, stmts, c))
    decreases Left(env, c), |stmts|
  {
    hide All, Obeys, Trusted, FnsTryFree, Credit;
    if stmts != [] {
      var first := Exec(env, stmts[0], c);
      ExecKept(env, rule, imports, stmts[0], c);
      if first.Got? && first.value.Next? { BlockKept(env, rule, imports, stmts[1..], first.ctx); }
    }
  }

  lemma {:induction false} LetKept(env: Env, rule: Deed -> bool, imports: bool, x: string, e: Expr, c: Ctx)
    ensures Kept(env, rule, imports, true, c, ExecLet(env, x, e, c))
    decreases Left(env, c)
  {
    hide All, Obeys, Trusted, FnsTryFree, Credit;
    EvalKept(env, rule, imports, e, c);
  }

  lemma {:induction false} AssignKept(env: Env, rule: Deed -> bool, imports: bool, place: Expr, e: Expr, c: Ctx)
    ensures Kept(env, rule, imports, true, c, ExecAssign(env, place, e, c))
    decreases Left(env, c)
  {
    hide Eval, AssignTo, All, Obeys, Trusted, FnsTryFree, Credit;
    var r := Eval(env, e, c);
    EvalKept(env, rule, imports, e, c);
    if r.Got? { PlaceKept(env, rule, imports, place, r.value, r.ctx); }
  }

  lemma {:induction false} PlaceKept(env: Env, rule: Deed -> bool, imports: bool, place: Expr, v: Value, c: Ctx)
    ensures Kept(env, rule, imports, true, c, AssignTo(env, place, v, c))
    decreases Left(env, c), 4
  {
    hide All, Obeys, Trusted, FnsTryFree, Credit;
    if place.IndexExpr? { StoreKept(env, rule, imports, place.obj, place.index, v, c); }
  }

  lemma {:induction false} StoreKept(env: Env, rule: Deed -> bool, imports: bool, o: Expr, i: Expr, v: Value, c: Ctx)
    ensures Kept(env, rule, imports, true, c, ExecStore(env, o, i, v, c))
    decreases Left(env, c), 3
  {
    hide All, Obeys, Trusted, FnsTryFree, Credit, IndexAssign;
    EvalAllKept(env, rule, imports, [o, i], c);
  }

  lemma {:induction false} IfKept(env: Env, rule: Deed -> bool, imports: bool, cond: Expr, body: seq<Stmt>,
                                  elifs: seq<Elif>, els: Else, c: Ctx)
    ensures Kept(env, rule, imports, TryFree(IfStmt(cond, body, elifs, els), imports), c,
                 ExecIf(env, cond, body, elifs, els, c))
    decreases Left(env, c)
  {
    hide BlockTryFree, ElifsTryFree, All, Obeys, Trusted, FnsTryFree, Credit, Eval, Block, ExecElifs;
    var r := Eval(env, cond, c);
    EvalKept(env, rule, imports, cond, c);
    if r.Got? {
      if Truthy(r.value, r.ctx.heap) {
        BlockKept(env, rule, imports, body, r.ctx);
      } else {
        ElifsKept(env, rule, imports, elifs, els, r.ctx);
      }
    }
  }

  lemma {:induction false} ElifsKept(env: Env, rule: Deed -> bool, imports: bool, elifs: seq<Elif>, els: Else, c: Ctx)
    ensures var ok := ElifsTryFree(elifs, imports) && (els.Else? ==> BlockTryFree(els.otherwise, imports));
      Kept(env, rule, imports, ok, c, ExecElifs(env, elifs, els, c))
    decreases Left(env, c)
  {
    hide BlockTryFree, All, Obeys, Trusted, FnsTryFree, Credit;
    if elifs == [] {
      if els.Else? { BlockKept(env, rule, imports, els.otherwise, c); }
    } else {
      var r := Eval(env, elifs[0].test, c);
      EvalKept(env, rule, imports, elifs[0].test, c);
      if r.Got? {
        if Truthy(r.value, r.ctx.heap) {
          BlockKept(env, rule, imports, elifs[0].block, r.ctx);
        } else {
          ElifsKept(env, rule, imports, elifs[1..], els, r.ctx);
        }
      }
    }
  }

  lemma {:induction false} ForKept(env: Env, rule: Deed -> bool, imports: bool, x: string, e: Expr, body: seq<Stmt>,
                                   c: Ctx)
    ensures Kept(env, rule, imports, BlockTryFree(body, imports), c, ExecFor(env, x, e, body, c))
    decreases Left(env, c)
  {
    hide BlockTryFree, All, Obeys, Trusted, FnsTryFree, Credit;
    var r := Eval(env, e, c);
    EvalKept(env, rule, imports, e, c);
    if r.Got? { LoopKept(env, rule, imports, x, ToWalk(env.py, r.value, r.ctx.heap), 0, body, r.ctx); }
  }

  lemma {:induction false} LoopKept(env: Env, rule: Deed -> bool, imports: bool, x: string, walk: Walk, i: nat,
                                    body: seq<Stmt>, c: Ctx)
    ensures Kept(env, rule, imports, BlockTryFree(body, imports), c, Loop(env, x, walk, i, body, c))
    decreases Left(env, c)
  {
    hide BlockTryFree, All, Obeys, Trusted, FnsTryFree, Credit;
    var items := Walked(walk, c.heap);
    var t := Tick(env, c);
    if i < |items| && t.Got? {
      var d := t.ctx.(scope := t.ctx.scope[x := items[i]]);
      var r := Block(env, body, d);
      BlockKept(env, rule, imports, body, d);
      if r.Got? && r.value.Next? { LoopKept(env, rule, imports, x, walk, i + 1, body, r.ctx); }
    }
  }

  lemma {:induction false} ReturnKept(env: Env, rule: Deed -> bool, imports: bool, e: Option<Expr>, c: Ctx)
    ensures Kept(env, rule, imports, true, c, ExecReturn(env, e, c))
    decreases Left(env, c)
  {
    hide All, Obeys, Trusted, FnsTryFree, Credit;
    if e.Some? { EvalKept(env, rule, imports, e.value, c); }
  }

  lemma {:induction false} TryKept(env: Env, rule: Deed -> bool, imports: bool, body: seq<Stmt>, x: string,
                                   handler: seq<Stmt>, c: Ctx)
    ensures Kept(env, rule, imports, false, c, ExecTry(env, body, x, handler, c))
    decreases Left(env, c)
  {
    hide BlockTryFree, All, Obeys, Trusted, FnsTryFree, Credit;
    var r := Block(env, body, c);
    BlockKept(env, rule, imports, body, c);
    if r.Raised? && !r.fault.OtherFault? { BlockKept(env, rule, imports, handler, Caught(x, r.fault, r.ctx)); }
  }

  lemma {:induction false} ImportKept(env: Env, rule: Deed -> bool, imports: bool, path: string, c: Ctx)
    ensures Kept(env, rule, imports, imports, c, ExecImport(env, path, c))
    decreases Left(env, c)
  {
    hide All, Obeys, FnsTryFree, Credit;
    if path !in c.imported {
      var d := c.(imported := c.imported + {path});
      match env.load(path, d.journal)
      case Loaded(program) => BlockKept(env, rule, imports, program, d);
      case _ =>
    }
  }

  lemma {:induction false} ExprKept(env: Env, rule: Deed -> bool, imports: bool, e: Expr, c: Ctx)
    ensures Kept(env, rule, imports, true, c, ExecExpr(env, e, c))
    decreases Left(env, c)
  {
    hide All, Obeys, Trusted, FnsTryFree, Credit;
    EvalKept(env, rule, imports, e, c);
  }

  lemma {:induction false} EvalKept(env: Env, rule: Deed -> bool, imports: bool, e: Expr, c: Ctx)
    ensures Kept(env, rule, imports, true, c, Eval(env, e, c))
    decreases Left(env, c), 0
  {
    hide All, Obeys, Trusted, FnsTryFree, Credit;
    var t := Tick(env, c);
    if t.Got? {
      match e
      case ListLit(es) => ListKept(env, rule, imports, es, t.ctx);
      case MapLit(pairs) => MapKept(env, rule, imports, pairs, t.ctx);
      case IndexExpr(o, i) => IndexKept(env, rule, imports, o, i, t.ctx);
      case BinOp(l, op, r) => BinaryKept(env, rule, imports, l, op, r, t.ctx);
      case UnaryOp(op, e) => PrefixKept(env, rule, imports, op, e, t.ctx);
      case FnCallExpr(f, args) => CallKept(env, rule, imports, f, args, t.ctx);
      case PipelineExpr(commands) => PipelineKept(env, rule, imports, commands, Null, t.ctx);
      case _ =>
    }
  }

  lemma {:induction false} EvalAllKept(env: Env, rule: Deed -> bool, imports: bool, es: seq<Expr>, c: Ctx)
    ensures Kept(env, rule, imports, true, c, EvalAll(env, es, c))
    decreases Left(env, c), |es|
  {
    hide All, Obeys, Trusted, FnsTryFree, Credit;
    if es != [] {
      var first := Eval(env, es[0], c);
      EvalKept(env, rule, imports, es[0], c);
      if first.Got? { EvalAllKept(env, rule, imports, es[1..], first.ctx); }
    }
  }

  lemma {:induction false} ListKept(env: Env, rule: Deed -> bool, imports: bool, es: seq<Expr>, c: Ctx)
    ensures Kept(env, rule, imports, true, c, EvalList(env, es, c))
    decreases Left(env, c)
  {
    hide All, Obeys, Trusted, FnsTryFree, Credit;
    EvalAllKept(env, rule, imports, es, c);
  }

  lemma {:induction false} MapKept(env: Env, rule: Deed -> bool, imports: bool, pairs: seq<Pair>, c: Ctx)
    ensures Kept(env, rule, imports, true, c, EvalMap(env, pairs, c))
    decreases Left(env, c)
  {
    hide All, Obeys, Trusted, FnsTryFree, Credit;
    EvalAllKept(env, rule, imports, Vals(pairs), c);
  }

  lemma {:induction false} IndexKept(env: Env, rule: Deed -> bool, imports: bool, o: Expr, i: Expr, c: Ctx)
    ensures Kept(env, rule, imports, true, c, EvalIndex(env, o, i, c))
    decreases Left(env, c)
  {
    hide All, Obeys, Trusted, FnsTryFree, Credit, Index;
    EvalAllKept(env, rule, imports, [o, i], c);
  }

  lemma {:induction false} BinaryKept(env: Env, rule: Deed -> bool, imports: bool, l: Expr, op: BinaryOp, r: Expr,
                                      c: Ctx)
    ensures Kept(env, rule, imports, true, c, EvalBinary(env, l, op, r, c))
    decreases Left(env, c)
  {
    hide All, Obeys, Trusted, FnsTryFree, Credit, Apply;
    if op == AndOp || op == OrOp {
      ShortKept(env, rule, imports, l, op == AndOp, r, c);
    } else {
      EvalAllKept(env, rule, imports, [l, r], c);
    }
  }

  lemma {:induction false} ShortKept(env: Env, rule: Deed -> bool, imports: bool, l: Expr, goOn: bool, r: Expr, c: Ctx)
    ensures Kept(env, rule, imports, true, c, EvalShort(env, l, goOn, r, c))
    decreases Left(env, c), 2
  {
    hide Eval, EvalRight, All, Obeys, Trusted, FnsTryFree, Credit;
    var left := Eval(env, l, c);
    EvalKept(env, rule, imports, l, c);
    if left.Got? { RightKept(env, rule, imports, left.value, goOn, r, left.ctx); }
  }

  lemma {:induction false} RightKept(env: Env, rule: Deed -> bool, imports: bool, left: Value, goOn: bool, r: Expr,
                                     c: Ctx)
    ensures Kept(env, rule, imports, true, c, EvalRight(env, left, goOn, r, c))
    decreases Left(env, c), 1
  {
    hide All, Obeys, Trusted, FnsTryFree, Credit;
    if Truthy(left, c.heap) == goOn { EvalKept(env, rule, imports, r, c); }
  }

  lemma {:induction false} PrefixKept(env: Env, rule: Deed -> bool, imports: bool, op: PrefixOp, e: Expr, c: Ctx)
    ensures Kept(env, rule, imports, true, c, EvalPrefix(env, op, e, c))
    decreases Left(env, c)
  {
    hide All, Obeys, Trusted, FnsTryFree, Credit;
    EvalKept(env, rule, imports, e, c);
  }

  lemma {:induction false} CallKept(env: Env, rule: Deed -> bool, imports: bool, f: string, args: seq<Expr>, c: Ctx)
    ensures Kept(env, rule, imports, true, c, EvalCall(env, f, args, c))
    decreases Left(env, c)
  {
    hide BlockTryFree, CallUtility, CallBuiltin, CallUser, All, Obeys, Trusted, FnsTryFree, Credit;
    var r := EvalAll(env, args, c);
    EvalAllKept(env, rule, imports, args, c);
    if r.Got? {
      UtilityKept(env, rule, imports, f, r.value, r.ctx);
      BuiltinKept(env, rule, imports, f, Null, r.value, r.ctx);
      if f in r.ctx.functions { UserKept(env, rule, imports, r.ctx.functions[f], r.value, Null, r.ctx); }
      if f in r.ctx.functions { DefinedIsTryFree(r.ctx.functions, imports, f); }
    }
  }

  lemma DefinedIsTryFree(functions: map<string, Fn>, imports: bool, f: string)
    requires f in functions
    ensures FnsTryFree(functions, imports) ==> BlockTryFree(functions[f].body, imports)
  {
  }

  /** Where no error is in flight, a call past the limit means that one was caught. */
  lemma CountedIsHonest(env: Env, c: Ctx)
    ensures Honest(env.maxSteps, c) ==> (Counted(env, c).late > 0 ==> c.caught > 0)
  {
  }

  lemma UtilityKept(env: Env, rule: Deed -> bool, imports: bool, name: string, args: seq<Value>, c: Ctx)
    ensures Kept(env, rule, imports, true, c, CallUtility(env, name, args, c))
  {
    hide Honest, Append, SetKey;
    CountedIsHonest(env, c);
  }

  lemma BuiltinKept(env: Env, rule: Deed -> bool, imports: bool, name: string, stdin: Value, args: seq<Value>, c: Ctx)
    ensures Kept(env, rule, imports, true, c, CallBuiltin(env, name, stdin, args, c))
  {
    hide Honest;
    CountedIsHonest(env, c);
  }

  lemma {:induction false} PipelineKept(env: Env, rule: Deed -> bool, imports: bool, commands: seq<Command>,
                                        stdin: Value, c: Ctx)
    ensures Kept(env, rule, imports, true, c, Pipeline(env, commands, stdin, c))
    decreases Left(env, c), |commands|
  {
    hide All, Obeys, Trusted, FnsTryFree, Credit;
    if commands != [] {
      var r := RunCommand(env, commands[0], stdin, c);
      CommandKept(env, rule, imports, commands[0], stdin, c);
      if r.Got? { PipelineKept(env, rule, imports, commands[1..], r.value, r.ctx); }
    }
  }

  lemma {:induction false} CommandKept(env: Env, rule: Deed -> bool, imports: bool, command: Command, stdin: Value,
                                       c: Ctx)
    ensures Kept(env, rule, imports, true, c, RunCommand(env, command, stdin, c))
    decreases Left(env, c), 0
  {
    hide EvalToText, Dispatch, All, Obeys, Trusted, FnsTryFree, Credit;
    var t := Tick(env, c);
    if t.Got? {
      if command.cmd == CALL {
        TextKept(env, rule, imports, command.cmdArgs, t.ctx);
      } else {
        var r := EvalAll(env, command.cmdArgs, t.ctx);
        EvalAllKept(env, rule, imports, command.cmdArgs, t.ctx);
        if r.Got? { DispatchKept(env, rule, imports, command.cmd, r.value, stdin, r.ctx); }
      }
    }
  }

  lemma {:induction false} TextKept(env: Env, rule: Deed -> bool, imports: bool, args: seq<Expr>, c: Ctx)
    ensures Kept(env, rule, imports, true, c, EvalToText(env, args, c))
    decreases Left(env, c)
  {
    hide All, Obeys, Trusted, FnsTryFree, Credit;
    if args != [] { EvalKept(env, rule, imports, args[0], c); }
  }

  lemma {:induction false} DispatchKept(env: Env, rule: Deed -> bool, imports: bool, name: string, args: seq<Value>,
                                        stdin: Value, c: Ctx)
    ensures Kept(env, rule, imports, true, c, Dispatch(env, name, args, stdin, c))
    decreases Left(env, c)
  {
    hide BlockTryFree, CallBuiltin, CallUser, All, Obeys, Trusted, FnsTryFree, Credit;
    BuiltinKept(env, rule, imports, name, stdin, args, c);
    if name in c.functions {
      UserKept(env, rule, imports, c.functions[name], args, stdin, c);
      DefinedIsTryFree(c.functions, imports, name);
    }
  }

  lemma {:induction false} UserKept(env: Env, rule: Deed -> bool, imports: bool, fn: Fn, args: seq<Value>,
                                    stdin: Value, c: Ctx)
    ensures Kept(env, rule, imports, BlockTryFree(fn.body, imports), c, CallUser(env, fn, args, stdin, c))
    decreases Left(env, c), |fn.body| + 1
  {
    hide BlockTryFree, Bind, All, Obeys, Trusted, FnsTryFree, Credit, Block;
    if c.depth < env.maxDepth {
      var scope := Bind(c.scope, fn.params, args);
      var inner := if stdin.Null? then scope else scope[STDIN := stdin];
      BlockKept(env, rule, imports, fn.body, c.(depth := c.depth + 1, scope := inner));
    }
  }

  // ----- whole runs -----

  /** A run does to the database only what keeps the rule that the builtins obey. */
  lemma RunsKeepTheRule(env: Env, rule: Deed -> bool, program: seq<Stmt>)
    requires Obeys(env, rule)
    ensures All(rule, Run(env, program).ctx.journal)
  {
    hide Obeys, Block, BlockTryFree, FnsTryFree, Trusted, Honest;
    BlockKept(env, rule, false, program, START);
  }
}
