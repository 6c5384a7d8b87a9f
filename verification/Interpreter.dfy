/** The interpreter as an object that runs programs by changing its context in place.  Every method
    is proved to leave the context, and to return or raise, exactly as the functions of
    Interpretation say, and so to terminate within their bounds. */
module Interpreter {
  import opened Wrappers
  import opened Syntax
  import opened Values
  import opened Interpretation

  class Interpreter {
    const env: Env
    var scope: Scope
    var functions: map<string, Fn>
    var output: seq<string>
    var stepCount: nat
    var callDepth: nat
    var imported: set<string>
    var heap: Heap
    var journal: seq<Deed>
    var httpCalls: nat
    ghost var caught: nat
    ghost var calls: nat
    ghost var late: nat

    constructor (env: Env)
      ensures this.env == env && Context() == START
    {
      this.env := env;
      scope, functions, output, stepCount, callDepth, imported := map[], map[], [], 0, 0, {};
      heap, journal, httpCalls := [], [], 0;
      caught, calls, late := 0, 0, 0;
    }

    ghost function Context(): Ctx
      reads this
    {
      Ctx(scope, functions, output, stepCount, callDepth, imported, heap, journal, httpCalls, caught, calls, late)
    }

    /** What a method returned or raised, with the context it left. */
    ghost function Outcome<T>(r: Result<T, Fault>): Out<T>
      reads this
    {
      match r case Success(v) => Got(v, Context()) case Failure(f) => Raised(f, Context())
    }

    method TickOnce() returns (r: Result<(), Fault>)
      modifies this
      ensures Outcome(r) == Tick(env, old(Context()))
    {
      stepCount := stepCount + 1;
      if stepCount > env.maxSteps { return Failure(StepLimit(env.maxSteps)); }
      r := Success(());
    }

    // ----- statements -----

    method ExecStmt(s: Stmt) returns (r: Result<Flow, Fault>)
      modifies this
      ensures Outcome(r) == Exec(env, s, old(Context()))
      decreases Left(env, Context()), 0
    {
      hide ExecLet, ExecAssign, ExecIf, ExecFor, ExecReturn, ExecTry, ExecImport, ExecExpr;
      var _ :- TickOnce();
      match s
      case LetStmt(x, e) => r := ExecLetStmt(x, e);
      case AssignStmt(place, e) => r := ExecAssignment(place, e);
      case IfStmt(cond, body, elifs, els) => r := ExecIfStmt(cond, body, elifs, els);
      case ForStmt(x, e, body) => r := ExecForStmt(x, e, body);
      case FnDef(name, params, body) =>
        functions := functions[name := Fn(name, params, body)];
        r := Success(Next);
      case ReturnStmt(e) => r := ExecReturnStmt(e);
      case TryCatch(body, x, handler) => r := ExecTryCatch(body, x, handler);
      case ImportStmt(path) => r := ExecImportStmt(path);
      case ExprStmt(e) => r := ExecExprStmt(e);
    }

    method ExecBlock(stmts: seq<Stmt>) returns (r: Result<Flow, Fault>)
      modifies this
      ensures Outcome(r) == Block(env, stmts, old(Context()))
      decreases Left(env, Context()), |stmts|
    {
      hide Exec;
      for i := 0 to |stmts|
        invariant Block(env, stmts, old(Context())) == Block(env, stmts[i..], Context())
        invariant Left(env, Context()) <= Left(env, old(Context()))
      {
        var flow :- ExecStmt(stmts[i]);
        if flow.Return? { return Success(flow); }
        assert stmts[i..][1..] == stmts[i + 1..];
      }
      r := Success(Next);
    }

    method ExecLetStmt(x: string, e: Expr) returns (r: Result<Flow, Fault>)
      modifies this
      ensures Outcome(r) == ExecLet(env, x, e, old(Context()))
      decreases Left(env, Context())
    {
      hide Eval;
      var v :- EvalExpr(e);
      scope := scope[x := v];
      r := Success(Next);
    }

    method ExecAssignment(place: Expr, e: Expr) returns (r: Result<Flow, Fault>)
      modifies this
      ensures Outcome(r) == ExecAssign(env, place, e, old(Context()))
      decreases Left(env, Context())
    {
      hide Eval, AssignTo, Debt, Credit;
      var v := EvalExpr(e);
      if v.Failure? {
        assert ExecAssign(env, place, e, old(Context())) == Raised(v.error, Context());
        return Failure(v.error);
      }
      assert ExecAssign(env, place, e, old(Context())) == AssignTo(env, place, v.value, Context());
      r := AssignTarget(place, v.value);
    }

    method AssignTarget(place: Expr, v: Value) returns (r: Result<Flow, Fault>)
      modifies this
      ensures Outcome(r) == AssignTo(env, place, v, old(Context()))
      decreases Left(env, Context()), 4
    {
      hide ExecStore;
      match place
      case VarRef(x) =>
        scope := scope[x := v];
        r := Success(Next);
      case IndexExpr(o, i) => r := ExecIndexAssign(o, i, v);
      case _ => r := Failure(ScriptFault("Invalid assignment target"));
    }

    method ExecIndexAssign(o: Expr, i: Expr, v: Value) returns (r: Result<Flow, Fault>)
      modifies this
      ensures Outcome(r) == ExecStore(env, o, i, v, old(Context()))
      decreases Left(env, Context()), 3
    {
      hide Eval, EvalAll;
      AllOfTwo(env, o, i, Context());
      var obj :- EvalExpr(o);
      var idx :- EvalExpr(i);
      match IndexAssign(env.py, obj, idx, v, heap)
      case Fails(f) => r := Failure(f);
      case Gives(h) =>
        heap := h;
        r := Success(Next);
    }

    method ExecIfStmt(cond: Expr, body: seq<Stmt>, elifs: seq<Elif>, els: Else) returns (r: Result<Flow, Fault>)
      modifies this
      ensures Outcome(r) == ExecIf(env, cond, body, elifs, els, old(Context()))
      decreases Left(env, Context())
    {
      hide Eval, Block, ExecElifs;
      var v :- EvalExpr(cond);
      if Truthy(v, heap) { r := ExecBlock(body); } else { r := ExecElifClauses(elifs, els); }
    }

    method ExecElifClauses(elifs: seq<Elif>, els: Else) returns (r: Result<Flow, Fault>)
      modifies this
      ensures Outcome(r) == ExecElifs(env, elifs, els, old(Context()))
      decreases Left(env, Context())
    {
      hide Eval, Block;
      for i := 0 to |elifs|
        invariant ExecElifs(env, elifs, els, old(Context())) == ExecElifs(env, elifs[i..], els, Context())
        invariant Left(env, Context()) <= Left(env, old(Context()))
      {
        var v :- EvalExpr(elifs[i].test);
        if Truthy(v, heap) {
          r := ExecBlock(elifs[i].block);
          return;
        }
        assert elifs[i..][1..] == elifs[i + 1..];
      }
      match els
      case NoElse => r := Success(Next);
      case Else(body) => r := ExecBlock(body);
    }

    method ExecForStmt(x: string, e: Expr, body: seq<Stmt>) returns (r: Result<Flow, Fault>)
      modifies this
      ensures Outcome(r) == ExecFor(env, x, e, body, old(Context()))
      decreases Left(env, Context())
    {
      hide Eval, Loop;
      var v :- EvalExpr(e);
      r := ExecLoop(x, ToWalk(env.py, v, heap), body);
    }

    /** The items of a list are looked up turn by turn, so a turn sees what earlier turns did to it. */
    method ExecLoop(x: string, walk: Walk, body: seq<Stmt>) returns (r: Result<Flow, Fault>)
      modifies this
      ensures Outcome(r) == Loop(env, x, walk, 0, body, old(Context()))
      decreases Left(env, Context())
    {
      hide Block;
      var i := 0;
      while i < |Walked(walk, heap)|
        invariant Loop(env, x, walk, 0, body, old(Context())) == Loop(env, x, walk, i, body, Context())
        invariant Left(env, Context()) <= Left(env, old(Context()))
        decreases Left(env, Context())
      {
        var item := Walked(walk, heap)[i];
        var _ :- TickOnce();
        scope := scope[x := item];
        var flow :- ExecBlock(body);
        if flow.Return? { return Success(flow); }
        i := i + 1;
      }
      r := Success(Next);
    }

    method ExecReturnStmt(e: Option<Expr>) returns (r: Result<Flow, Fault>)
      modifies this
      ensures Outcome(r) == ExecReturn(env, e, old(Context()))
      decreases Left(env, Context())
    {
      hide Eval;
      if e.None? { return Success(Return(Null)); }
      var v :- EvalExpr(e.value);
      r := Success(Return(v));
    }

    method ExecTryCatch(body: seq<Stmt>, x: string, handler: seq<Stmt>) returns (r: Result<Flow, Fault>)
      modifies this
      ensures Outcome(r) == ExecTry(env, body, x, handler, old(Context()))
      decreases Left(env, Context())
    {
      hide Block;
      r := ExecBlock(body);
      if r.Success? || r.error.OtherFault? { return; }
      if r.error.StepLimit? { caught := caught + 1; }
      scope := scope[x := Str(Message(r.error))];
      r := ExecBlock(handler);
    }

    method ExecImportStmt(path: string) returns (r: Result<Flow, Fault>)
      modifies this
      ensures Outcome(r) == ExecImport(env, path, old(Context()))
      decreases Left(env, Context())
    {
      hide Block;
      if path in imported { return Success(Next); }
      imported := imported + {path};
      match env.load(path, journal)
      case Unreadable => r := Failure(ScriptFault("import: cannot read '" + path + "'"));
      case Unparsable => r := Failure(ScriptFault("import: parse error in '" + path + "'"));
      case Loaded(program) => r := ExecBlock(program);
    }

    method ExecExprStmt(e: Expr) returns (r: Result<Flow, Fault>)
      modifies this
      ensures Outcome(r) == ExecExpr(env, e, old(Context()))
      decreases Left(env, Context())
    {
      hide Eval;
      var v :- EvalExpr(e);
      if v.Str? && v.s != "" { output := output + [v.s]; }
      r := Success(Next);
    }

    // ----- expressions -----

    method EvalExpr(e: Expr) returns (r: Result<Value, Fault>)
      modifies this
      ensures Outcome(r) == Eval(env, e, old(Context()))
      decreases Left(env, Context()), 0
    {
      hide EvalString, EvalVar, EvalList, EvalMap, EvalIndex, EvalBinary, EvalPrefix, EvalCall, Pipeline;
      var _ :- TickOnce();
      match e
      case StringLit(s) => r := Interpolate(s);
      case NumberLit(n) => r := Success(Number(n));
      case BoolLit(b) => r := Success(Bool(b));
      case NullLit => r := Success(Null);
      case ListLit(es) => r := EvalListLit(es);
      case MapLit(pairs) => r := EvalMapLit(pairs);
      case VarRef(x) => r := LookUp(x);
      case IndexExpr(o, i) => r := EvalIndexExpr(o, i);
      case BinOp(left, op, right) => r := EvalBinop(left, op, right);
      case UnaryOp(op, operand) => r := EvalUnary(op, operand);
      case FnCallExpr(f, args) => r := CallFn(f, args);
      case PipelineExpr(commands) => r := ExecPipeline(commands, Null);
    }

    method Interpolate(s: string) returns (r: Result<Value, Fault>)
      ensures Outcome(r) == EvalString(env, s, Context())
    {
      match Values.Interpolate(env.py, s, scope, heap)
      case Gives(t) => r := Success(Str(t));
      case Fails(f) => r := Failure(f);
    }

    method LookUp(x: string) returns (r: Result<Value, Fault>)
      ensures Outcome(r) == EvalVar(x, Context())
    {
      if x in scope { return Success(scope[x]); }
      if x in functions { return Success(Func(functions[x])); }
      r := Failure(ScriptFault("Undefined variable: " + x));
    }

    /** The values of a list of expressions, left to right. */
    method EvalEach(es: seq<Expr>) returns (r: Result<seq<Value>, Fault>)
      modifies this
      ensures Outcome(r) == EvalAll(env, es, old(Context()))
      decreases Left(env, Context()), |es|
    {
      hide Eval;
      var vs := [];
      ghost var spec := EvalAll(env, es, Context());
      OntoNothing(spec);
      assert es[0..] == es;
      for i := 0 to |es|
        invariant |vs| == i
        invariant spec == Onto(vs, EvalAll(env, es[i..], Context()))
        invariant Left(env, Context()) <= Left(env, old(Context()))
      {
        var v :- EvalExpr(es[i]);
        assert es[i..][1..] == es[i + 1..];
        OntoOne(vs, v, EvalAll(env, es[i + 1..], Context()));
        vs := vs + [v];
      }
      assert vs + [] == vs;
      r := Success(vs);
    }

    method EvalListLit(es: seq<Expr>) returns (r: Result<Value, Fault>)
      modifies this
      ensures Outcome(r) == EvalList(env, es, old(Context()))
      decreases Left(env, Context())
    {
      hide EvalAll;
      var vs :- EvalEach(es);
      r := Success(List(|heap|));
      heap := heap + [Items(vs)];
    }

    method EvalMapLit(pairs: seq<Pair>) returns (r: Result<Value, Fault>)
      modifies this
      ensures Outcome(r) == EvalMap(env, pairs, old(Context()))
      decreases Left(env, Context())
    {
      hide EvalAll;
      var vs :- EvalEach(Vals(pairs));
      r := Success(Dict(|heap|));
      heap := heap + [Entries(PutAll([], PairKeys(pairs), vs))];
    }

    method EvalIndexExpr(o: Expr, i: Expr) returns (r: Result<Value, Fault>)
      modifies this
      ensures Outcome(r) == EvalIndex(env, o, i, old(Context()))
      decreases Left(env, Context())
    {
      hide Eval, EvalAll;
      AllOfTwo(env, o, i, Context());
      var obj :- EvalExpr(o);
      var idx :- EvalExpr(i);
      r := Settled(Index(env.py, obj, idx, heap));
    }

    method EvalBinop(left: Expr, op: BinaryOp, right: Expr) returns (r: Result<Value, Fault>)
      modifies this
      ensures Outcome(r) == EvalBinary(env, left, op, right, old(Context()))
      decreases Left(env, Context())
    {
      hide Eval, EvalAll, Apply, EvalShort, Debt, Credit;
      if op == AndOp || op == OrOp {
        r := EvalLogical(left, op == AndOp, right);
        return;
      }
      AllOfTwo(env, left, right, Context());
      var a :- EvalExpr(left);
      var b :- EvalExpr(right);
      r := Settled(Apply(env.py, op, a, b, heap));
    }

    method EvalLogical(left: Expr, goOn: bool, right: Expr) returns (r: Result<Value, Fault>)
      modifies this
      ensures Outcome(r) == EvalShort(env, left, goOn, right, old(Context()))
      decreases Left(env, Context()), 2
    {
      hide Eval, EvalRight, Debt, Credit;
      r := EvalExpr(left);
      if r.Failure? {
        assert EvalShort(env, left, goOn, right, old(Context())) == Outcome(r);
      } else {
        assert EvalShort(env, left, goOn, right, old(Context())) == EvalRight(env, r.value, goOn, right, Context());
        r := GoOn(r.value, goOn, right);
      }
    }

    method GoOn(left: Value, goOn: bool, right: Expr) returns (r: Result<Value, Fault>)
      modifies this
      ensures Outcome(r) == EvalRight(env, left, goOn, right, old(Context()))
      decreases Left(env, Context()), 1
    {
      hide Eval;
      if Truthy(left, heap) != goOn { return Success(left); }
      r := EvalExpr(right);
    }

    method EvalUnary(op: PrefixOp, e: Expr) returns (r: Result<Value, Fault>)
      modifies this
      ensures Outcome(r) == EvalPrefix(env, op, e, old(Context()))
      decreases Left(env, Context())
    {
      hide Eval;
      var v :- EvalExpr(e);
      r := Success(ApplyPrefix(env.py, op, v, heap));
    }

    // ----- calls and pipelines -----

    method CallFn(f: string, args: seq<Expr>) returns (r: Result<Value, Fault>)
      modifies this
      ensures Outcome(r) == EvalCall(env, f, args, old(Context()))
      decreases Left(env, Context())
    {
      hide EvalAll, CallUtility, CallUser, CallBuiltin;
      var vs :- EvalEach(args);
      if f in UTILITIES {
        r := RunUtility(f, vs);
      } else if f in functions {
        r := CallUserFn(functions[f], vs, Null);
      } else if f in env.builtins {
        r := RunBuiltin(f, Null, vs);
      } else {
        r := Failure(ScriptFault("Unknown function: " + f));
      }
    }

    ghost method Count()
      modifies this`calls, this`late
      ensures Context() == Counted(env, old(Context()))
    {
      if stepCount > env.maxSteps { late := late + 1; }
      calls := calls + 1;
    }

    method RunUtility(name: string, args: seq<Value>) returns (r: Result<Value, Fault>)
      modifies this
      ensures Outcome(r) == CallUtility(env, name, args, old(Context()))
    {
      Count();
      if name == "append" || name == "set" {
        match if name == "append" then Append(args, heap) else SetKey(env.py, args, heap)
        case Gives(h) =>
          heap := h;
          r := Success(args[0]);
        case Fails(f) => r := Failure(f);
      } else {
        var (answer, h) := env.utility(name, args, heap);
        heap := h;
        r := Settled(answer);
      }
    }

    method RunBuiltin(name: string, stdin: Value, args: seq<Value>) returns (r: Result<Value, Fault>)
      modifies this
      ensures Outcome(r) == CallBuiltin(env, name, stdin, args, old(Context()))
    {
      Count();
      var e := env.command(name, stdin, args, heap, env.workspace, journal, httpCalls);
      heap, journal, httpCalls := e.heap, journal + e.deeds, e.web;
      r := Settled(e.answer);
    }

    method ExecPipeline(commands: seq<Command>, stdin: Value) returns (r: Result<Value, Fault>)
      modifies this
      ensures Outcome(r) == Pipeline(env, commands, stdin, old(Context()))
      decreases Left(env, Context()), |commands|
    {
      hide RunCommand;
      var data := stdin;
      for i := 0 to |commands|
        invariant Pipeline(env, commands, stdin, old(Context())) == Pipeline(env, commands[i..], data, Context())
        invariant Left(env, Context()) <= Left(env, old(Context()))
      {
        data :- ExecCommand(commands[i], data);
        assert commands[i..][1..] == commands[i + 1..];
      }
      r := Success(data);
    }

    method ExecCommand(command: Command, stdin: Value) returns (r: Result<Value, Fault>)
      modifies this
      ensures Outcome(r) == RunCommand(env, command, stdin, old(Context()))
      decreases Left(env, Context()), 0
    {
      hide EvalAll, EvalToText, Dispatch;
      var _ :- TickOnce();
      if command.cmd == CALL {
        r := TextOfCall(command.cmdArgs);
        return;
      }
      var vs :- EvalEach(command.cmdArgs);
      r := RunNamed(command.cmd, vs, stdin);
    }

    method TextOfCall(args: seq<Expr>) returns (r: Result<Value, Fault>)
      modifies this
      ensures Outcome(r) == EvalToText(env, args, old(Context()))
      decreases Left(env, Context())
    {
      hide Eval;
      if args == [] { return Failure(OtherFault("list index out of range")); }
      var v :- EvalExpr(args[0]);
      match ToText(env.py, v, heap)
      case Gives(t) => r := Success(Str(t));
      case Fails(f) => r := Failure(f);
    }

    method RunNamed(name: string, args: seq<Value>, stdin: Value) returns (r: Result<Value, Fault>)
      modifies this
      ensures Outcome(r) == Dispatch(env, name, args, stdin, old(Context()))
      decreases Left(env, Context())
    {
      hide CallBuiltin, CallUser;
      if name in env.builtins {
        r := RunBuiltin(name, stdin, args);
        if r.Failure? && !r.error.BuiltinFault? { r := Failure(ScriptFault("Error in builtin '" + name + "'")); }
      } else if name in functions {
        r := CallUserFn(functions[name], args, stdin);
      } else {
        r := Failure(ScriptFault("Unknown command: " + name));
      }
    }

    method CallUserFn(fn: Fn, args: seq<Value>, stdin: Value) returns (r: Result<Value, Fault>)
      modifies this
      ensures Outcome(r) == CallUser(env, fn, args, stdin, old(Context()))
      decreases Left(env, Context()), |fn.body| + 1
    {
      hide Block, Bind;
      if callDepth >= env.maxDepth {
        return Failure(ScriptFault("Max call depth exceeded (" + Digits(env.maxDepth) + ")"));
      }
      var savedScope := scope;
      BindParams(fn.params, args);
      if !stdin.Null? { scope := scope[STDIN := stdin]; }
      callDepth := callDepth + 1;
      var flow := ExecBlock(fn.body);
      scope, callDepth := savedScope, callDepth - 1;
      match flow
      case Success(Return(v)) => r := Success(v);
      case Success(Next) => r := Success(Null);
      case Failure(f) => r := Failure(f);
    }

    method BindParams(params: seq<string>, args: seq<Value>)
      modifies this`scope
      ensures scope == Bind(old(scope), params, args)
    {
      for i := 0 to |params|
        invariant Bind(old(scope), params, args) == Bind(scope, params[i..], if i < |args| then args[i..] else [])
      {
        scope := scope[params[i] := if i < |args| then args[i] else Null];
        assert params[i..][1..] == params[i + 1..];
        assert i < |args| ==> args[i..][1..] == args[i + 1..];
      }
    }

    static function Settled<T>(a: Answer<T>): Result<T, Fault> {
      match a case Gives(v) => Success(v) case Fails(f) => Failure(f)
    }

    // ----- whole programs -----

    /** Runs a program on a new interpreter. */
    method RunProgram(program: seq<Stmt>) returns (r: Result<Flow, Fault>)
      requires Context() == START
      modifies this
      ensures Outcome(r) == Run(env, program)
    {
      r := ExecBlock(program);
    }
  }

  // ----- values put before the values of an outcome -----

  function Onto(vs: seq<Value>, r: Out<seq<Value>>): Out<seq<Value>> {
    if r.Got? then Got(vs + r.value, r.ctx) else r
  }

  lemma OntoNothing(r: Out<seq<Value>>)
    ensures Onto([], r) == r
  {
    if r.Got? { assert [] + r.value == r.value; }
  }

  lemma OntoOne(vs: seq<Value>, v: Value, r: Out<seq<Value>>)
    ensures Onto(vs + [v], r) == Onto(vs, if r.Got? then Got([v] + r.value, r.ctx) else r)
  {
    if r.Got? { assert (vs + [v]) + r.value == vs + ([v] + r.value); }
  }
}
