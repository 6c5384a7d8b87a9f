/** What a script does: every construct as a function from the context to the context after it.

    The only bound on a run is the step counter.  The recursion below is accepted because every
    call chain passes a successful tick, so the measure is the steps still allowed, and the size of
    the block at hand only between ticks. */
module Interpretation {
  import opened Wrappers
  import opened Syntax
  import opened Values

  // ----- contexts -----

  /** Something done to the database, in the workspace it names. */
  datatype Deed = Deed(workspace: string, act: Act)

  datatype Act =
    | Writes(path: string, hash: string, content: string)
    | Deletes(path: string)
    | Commits(message: string, id: string, rejected: bool)
    | RollsBack
    | Snaps(name: string)

  /** What a builtin leaves behind, whether it succeeds or raises. */
  datatype Effect = Effect(answer: Answer<Value>, heap: Heap, deeds: seq<Deed>, web: nat)

  /** What an import finds in the database. */
  datatype Load = Unreadable | Unparsable | Loaded(program: seq<Stmt>)

  /** Everything a run is given: the runtime, the builtin commands, the utility functions other than
      `append` and `set`, the files of the database, and the workspace it runs in.  What builtins and
      imports see of the database is what the script has done to it so far. */
  datatype Env = Env(
    py: Runtime,
    builtins: set<string>,
    command: (string, Value, seq<Value>, Heap, string, seq<Deed>, nat) -> Effect,
    utility: (string, seq<Value>, Heap) -> (Answer<Value>, Heap),
    load: (string, seq<Deed>) -> Load,
    workspace: string,
    maxSteps: nat,
    maxDepth: nat)

  /** The mutable state of a run.  `journal` is what was done to the database so far; `caught` counts
      the step-limit errors caught, `calls` the builtins and utilities called, and `late` those called
      past the limit. */
  datatype Ctx = Ctx(
    scope: Scope,
    functions: map<string, Fn>,
    output: seq<string>,
    steps: nat,
    depth: nat,
    imported: set<string>,
    heap: Heap,
    journal: seq<Deed>,
    web: nat,
    caught: nat,
    calls: nat,
    late: nat)

  /** A value and the context after it, or what was raised and the context then. */
  datatype Out<+T> = Got(value: T, ctx: Ctx) | Raised(fault: Fault, ctx: Ctx) {
    predicate IsFailure() {
      Raised?
    }

    function PropagateFailure<U>(): Out<U>
      requires IsFailure()
    {
      Raised(fault, ctx)
    }

    function Extract(): (T, Ctx)
      requires !IsFailure()
    {
      (value, ctx)
    }
  }

  /** How a statement ends when it raises nothing: normally, or by `return`. */
  datatype Flow = Next | Return(v: Value)

  function Settle<T>(a: Answer<T>, c: Ctx): Out<T> {
    match a case Gives(v) => Got(v, c) case Fails(f) => Raised(f, c)
  }

  const UTILITIES :=
    {"len", "type", "str", "num", "keys", "values", "range", "append", "set", "int", "float", "split", "join"}

  const STDIN := "__stdin__"

  // ----- the accounts of a run -----

  /** Steps taken within the limit. */
  function In(n: nat, c: Ctx): nat {
    if c.steps <= n then c.steps else n
  }

  /** Steps taken past the limit. */
  function Over(n: nat, c: Ctx): nat {
    c.steps - In(n, c)
  }

  function Left(env: Env, c: Ctx): nat {
    env.maxSteps - In(env.maxSteps, c)
  }

  /** The steps past the limit that no caught step-limit error accounts for. */
  ghost function Debt(n: nat, c: Ctx): int {
    Over(n, c) - c.caught
  }

  /** The steps within the limit not yet spent on a caught step-limit error or a builtin call. */
  ghost function Credit(n: nat, c: Ctx): int {
    In(n, c) - c.caught - c.calls
  }

  /** Each step past the limit raises the step limit, and each such error is caught or still in
      flight; each catch and each call is paid for by a step of its own within the limit, except
      for `k` of them that the caller has already paid for.  The call depth is restored. */
  ghost predicate Fair<T>(n: nat, k: nat, c: Ctx, r: Out<T>) {
    && c.steps <= r.ctx.steps
    && Debt(n, r.ctx) == Debt(n, c) + (if r.Raised? && r.fault.StepLimit? then 1 else 0)
    && Credit(n, c) - k <= Credit(n, r.ctx)
    && r.ctx.depth == c.depth
  }

  /** The account of a construct that begins with a tick: it cannot succeed unless the tick did. */
  ghost predicate Paid<T>(n: nat, c: Ctx, r: Out<T>) {
    Fair(n, 0, c, r) && (r.Got? ==> c.steps < n && c.steps < r.ctx.steps)
  }

  // ----- ticks and the heap -----

  function Tick(env: Env, c: Ctx): (r: Out<()>)
    ensures Paid(env.maxSteps, c, r)
    ensures r.ctx.scope == c.scope
    ensures r.Got? ==> Left(env, r.ctx) < Left(env, c) && Credit(env.maxSteps, r.ctx) == Credit(env.maxSteps, c) + 1
  {
    var d := c.(steps := c.steps + 1);
    if d.steps > env.maxSteps then Raised(StepLimit(env.maxSteps), d) else Got((), d)
  }

  function Alloc(obj: Obj, c: Ctx): (nat, Ctx) {
    (|c.heap|, c.(heap := c.heap + [obj]))
  }

  // ----- calls that run no script code -----

  function CallBuiltin(env: Env, name: string, stdin: Value, args: seq<Value>, c: Ctx): (r: Out<Value>)
    ensures Fair(env.maxSteps, 1, c, r) && r.ctx.scope == c.scope
  {
    var e := env.command(name, stdin, args, c.heap, env.workspace, c.journal, c.web);
    Settle(e.answer, Counted(env, c).(heap := e.heap, journal := c.journal + e.deeds, web := e.web))
  }

  /** One more call counted. */
  function Counted(env: Env, c: Ctx): Ctx {
    c.(calls := c.calls + 1, late := if c.steps > env.maxSteps then c.late + 1 else c.late)
  }

  /** As a command, a builtin that fails with anything but its own error fails with a script error. */
  function Wrapped(name: string, r: Out<Value>): Out<Value> {
    if r.Raised? && !r.fault.BuiltinFault? then Raised(ScriptFault("Error in builtin '" + name + "'"), r.ctx) else r
  }

  function CallUtility(env: Env, name: string, args: seq<Value>, c: Ctx): (r: Out<Value>)
    ensures Fair(env.maxSteps, 1, c, r) && r.ctx.scope == c.scope
  {
    var d := Counted(env, c);
    if name == "append" then Changed(Append(args, c.heap), args, d)
    else if name == "set" then Changed(SetKey(env.py, args, c.heap), args, d)
    else
      var (answer, heap) := env.utility(name, args, c.heap);
      Settle(answer, d.(heap := heap))
  }

  /** A function that changes its argument returns that argument. */
  function Changed(h: Answer<Heap>, args: seq<Value>, c: Ctx): Out<Value>
    requires h.Gives? ==> args != []
  {
    match h case Gives(heap) => Got(args[0], c.(heap := heap)) case Fails(f) => Raised(f, c)
  }

  function Bind(scope: Scope, params: seq<string>, args: seq<Value>): Scope
    decreases |params|
  {
    if params == [] then scope
    else
      Bind(scope[params[0] := if args == [] then Null else args[0]], params[1..], if args == [] then [] else args[1..])
  }

  // ----- statements -----

  function Exec(env: Env, s: Stmt, c: Ctx): (r: Out<Flow>)
    ensures Paid(env.maxSteps, c, r)
    decreases Left(env, c), 0
  {
    var (_, d) :- Tick(env, c);
    match s
    case LetStmt(x, e) => ExecLet(env, x, e, d)
    case AssignStmt(place, e) => ExecAssign(env, place, e, d)
    case IfStmt(cond, body, elifs, els) => ExecIf(env, cond, body, elifs, els, d)
    case ForStmt(x, e, body) => ExecFor(env, x, e, body, d)
    case FnDef(name, params, body) => Got(Next, d.(functions := d.functions[name := Fn(name, params, body)]))
    case ReturnStmt(e) => ExecReturn(env, e, d)
    case TryCatch(body, x, handler) => ExecTry(env, body, x, handler, d)
    case ImportStmt(path) => ExecImport(env, path, d)
    case ExprStmt(e) => ExecExpr(env, e, d)
  }

  function Block(env: Env, stmts: seq<Stmt>, c: Ctx): (r: Out<Flow>)
    ensures Fair(env.maxSteps, 0, c, r)
    decreases Left(env, c), |stmts|
  {
    if stmts == [] then Got(Next, c)
    else
      var (flow, d) :- Exec(env, stmts[0], c);
      if flow.Return? then Got(flow, d) else Block(env, stmts[1..], d)
  }

  function ExecLet(env: Env, x: string, e: Expr, c: Ctx): (r: Out<Flow>)
    ensures Fair(env.maxSteps, 0, c, r)
    decreases Left(env, c)
  {
    var (v, d) :- Eval(env, e, c);
    Got(Next, d.(scope := d.scope[x := v]))
  }

  /** The value is evaluated before the place it goes to. */
  function ExecAssign(env: Env, place: Expr, e: Expr, c: Ctx): (r: Out<Flow>)
    ensures Fair(env.maxSteps, 0, c, r)
    decreases Left(env, c)
  {
    var (v, d) :- Eval(env, e, c);
    AssignTo(env, place, v, d)
  }

  function AssignTo(env: Env, place: Expr, v: Value, c: Ctx): (r: Out<Flow>)
    ensures Fair(env.maxSteps, 0, c, r)
    decreases Left(env, c), 4
  {
    match place
    case VarRef(x) => Got(Next, c.(scope := c.scope[x := v]))
    case IndexExpr(o, i) => ExecStore(env, o, i, v, c)
    case _ => Raised(ScriptFault("Invalid assignment target"), c)
  }

  function ExecStore(env: Env, o: Expr, i: Expr, v: Value, c: Ctx): (r: Out<Flow>)
    ensures Fair(env.maxSteps, 0, c, r)
    decreases Left(env, c), 3
  {
    var (vs, d) :- EvalAll(env, [o, i], c);
    var (heap, d) :- Settle(IndexAssign(env.py, vs[0], vs[1], v, d.heap), d);
    Got(Next, d.(heap := heap))
  }

  function ExecIf(env: Env, cond: Expr, body: seq<Stmt>, elifs: seq<Elif>, els: Else, c: Ctx): (r: Out<Flow>)
    ensures Fair(env.maxSteps, 0, c, r)
    decreases Left(env, c)
  {
    var (v, d) :- Eval(env, cond, c);
    if Truthy(v, d.heap) then Block(env, body, d) else ExecElifs(env, elifs, els, d)
  }

  function ExecElifs(env: Env, elifs: seq<Elif>, els: Else, c: Ctx): (r: Out<Flow>)
    ensures Fair(env.maxSteps, 0, c, r)
    decreases Left(env, c)
  {
    if elifs == [] then
      match els case NoElse => Got(Next, c) case Else(body) => Block(env, body, c)
    else
      var (v, d) :- Eval(env, elifs[0].test, c);
      if Truthy(v, d.heap) then Block(env, elifs[0].block, d) else ExecElifs(env, elifs[1..], els, d)
  }

  function ExecFor(env: Env, x: string, e: Expr, body: seq<Stmt>, c: Ctx): (r: Out<Flow>)
    ensures Fair(env.maxSteps, 0, c, r)
    decreases Left(env, c)
  {
    var (v, d) :- Eval(env, e, c);
    Loop(env, x, ToWalk(env.py, v, d.heap), 0, body, d)
  }

  /** The turns of a loop from the `i`th on, over the items as they are when each is reached. */
  function Loop(env: Env, x: string, walk: Walk, i: nat, body: seq<Stmt>, c: Ctx): (r: Out<Flow>)
    ensures Fair(env.maxSteps, 0, c, r)
    decreases Left(env, c)
  {
    var items := Walked(walk, c.heap);
    if i >= |items| then Got(Next, c)
    else
      var (_, d) :- Tick(env, c);
      var (flow, d) :- Block(env, body, d.(scope := d.scope[x := items[i]]));
      if flow.Return? then Got(flow, d) else Loop(env, x, walk, i + 1, body, d)
  }

  function ExecReturn(env: Env, e: Option<Expr>, c: Ctx): (r: Out<Flow>)
    ensures Fair(env.maxSteps, 0, c, r)
    decreases Left(env, c)
  {
    match e
    case None => Got(Return(Null), c)
    case Some(e) =>
      var (v, d) :- Eval(env, e, c);
      Got(Return(v), d)
  }

  /** The step limit is caught like any other script error. */
  function ExecTry(env: Env, body: seq<Stmt>, x: string, handler: seq<Stmt>, c: Ctx): (r: Out<Flow>)
    ensures Fair(env.maxSteps, 1, c, r)
    decreases Left(env, c)
  {
    var r := Block(env, body, c);
    if r.Got? || r.fault.OtherFault? then r else Block(env, handler, Caught(x, r.fault, r.ctx))
  }

  function Caught(x: string, f: Fault, c: Ctx): Ctx {
    c.(scope := c.scope[x := Str(Message(f))], caught := c.caught + if f.StepLimit? then 1 else 0)
  }

  /** A path is imported once, and counts as imported even when it cannot be read or parsed. */
  function ExecImport(env: Env, path: string, c: Ctx): (r: Out<Flow>)
    ensures Fair(env.maxSteps, 0, c, r)
    decreases Left(env, c)
  {
    if path in c.imported then Got(Next, c)
    else
      var d := c.(imported := c.imported + {path});
      match env.load(path, d.journal)
      case Unreadable => Raised(ScriptFault("import: cannot read '" + path + "'"), d)
      case Unparsable => Raised(ScriptFault("import: parse error in '" + path + "'"), d)
      case Loaded(program) => Block(env, program, d)
  }

  function ExecExpr(env: Env, e: Expr, c: Ctx): (r: Out<Flow>)
    ensures Fair(env.maxSteps, 0, c, r)
    decreases Left(env, c)
  {
    var (v, d) :- Eval(env, e, c);
    Got(Next, if v.Str? && v.s != "" then d.(output := d.output + [v.s]) else d)
  }

  // ----- expressions -----

  function Eval(env: Env, e: Expr, c: Ctx): (r: Out<Value>)
    ensures Paid(env.maxSteps, c, r) && r.ctx.scope == c.scope
    decreases Left(env, c), 0
  {
    var (_, d) :- Tick(env, c);
    match e
    case StringLit(s) => EvalString(env, s, d)
    case NumberLit(n) => Got(Number(n), d)
    case BoolLit(b) => Got(Bool(b), d)
    case NullLit => Got(Null, d)
    case ListLit(es) => EvalList(env, es, d)
    case MapLit(pairs) => EvalMap(env, pairs, d)
    case VarRef(x) => EvalVar(x, d)
    case IndexExpr(o, i) => EvalIndex(env, o, i, d)
    case BinOp(l, op, r) => EvalBinary(env, l, op, r, d)
    case UnaryOp(op, e) => EvalPrefix(env, op, e, d)
    case FnCallExpr(f, args) => EvalCall(env, f, args, d)
    case PipelineExpr(commands) => Pipeline(env, commands, Null, d)
  }

  function EvalAll(env: Env, es: seq<Expr>, c: Ctx): (r: Out<seq<Value>>)
    ensures Fair(env.maxSteps, 0, c, r) && r.ctx.scope == c.scope
    ensures r.Got? ==> |r.value| == |es|
    decreases Left(env, c), |es|
  {
    if es == [] then Got([], c)
    else
      var (v, d) :- Eval(env, es[0], c);
      var (vs, d) :- EvalAll(env, es[1..], d);
      Got([v] + vs, d)
  }

  lemma AllOfOne(env: Env, e: Expr, c: Ctx)
    ensures
      var r := Eval(env, e, c);
      EvalAll(env, [e], c) == if r.Got? then Got([r.value], r.ctx) else r.PropagateFailure()
  {
    hide Eval;
    var r := Eval(env, e, c);
    assert [e][1..] == [];
    if r.Got? {
      assert EvalAll(env, [], r.ctx) == Got([], r.ctx);
      assert [r.value] + [] == [r.value];
    }
  }

  lemma AllOfTwo(env: Env, a: Expr, b: Expr, c: Ctx)
    ensures
      var r := Eval(env, a, c);
      EvalAll(env, [a, b], c) ==
      if r.Raised? then r.PropagateFailure()
      else
        var q := Eval(env, b, r.ctx);
        if q.Got? then Got([r.value, q.value], q.ctx) else q.PropagateFailure()
  {
    hide Eval;
    var r := Eval(env, a, c);
    assert [a, b][1..] == [b];
    if r.Got? {
      var q := Eval(env, b, r.ctx);
      AllOfOne(env, b, r.ctx);
      if q.Got? { assert [r.value] + [q.value] == [r.value, q.value]; }
    }
  }

  function EvalString(env: Env, s: string, c: Ctx): Out<Value> {
    match Interpolate(env.py, s, c.scope, c.heap) case Gives(t) => Got(Str(t), c) case Fails(f) => Raised(f, c)
  }

  function EvalVar(x: string, c: Ctx): Out<Value> {
    if x in c.scope then Got(c.scope[x], c)
    else if x in c.functions then Got(Func(c.functions[x]), c)
    else Raised(ScriptFault("Undefined variable: " + x), c)
  }

  function EvalList(env: Env, es: seq<Expr>, c: Ctx): (r: Out<Value>)
    ensures Fair(env.maxSteps, 0, c, r) && r.ctx.scope == c.scope
    decreases Left(env, c)
  {
    var (vs, d) :- EvalAll(env, es, c);
    var (ref, d) := Alloc(Items(vs), d);
    Got(List(ref), d)
  }

  function EvalMap(env: Env, pairs: seq<Pair>, c: Ctx): (r: Out<Value>)
    ensures Fair(env.maxSteps, 0, c, r) && r.ctx.scope == c.scope
    decreases Left(env, c)
  {
    var (vs, d) :- EvalAll(env, Vals(pairs), c);
    var (ref, d) := Alloc(Entries(PutAll([], PairKeys(pairs), vs)), d);
    Got(Dict(ref), d)
  }

  function Vals(pairs: seq<Pair>): seq<Expr> {
    seq(|pairs|, i requires 0 <= i < |pairs| => pairs[i].val)
  }

  function PairKeys(pairs: seq<Pair>): seq<string> {
    seq(|pairs|, i requires 0 <= i < |pairs| => pairs[i].key)
  }

  function EvalIndex(env: Env, o: Expr, i: Expr, c: Ctx): (r: Out<Value>)
    ensures Fair(env.maxSteps, 0, c, r) && r.ctx.scope == c.scope
    decreases Left(env, c)
  {
    var (vs, d) :- EvalAll(env, [o, i], c);
    Settle(Index(env.py, vs[0], vs[1], d.heap), d)
  }

  /** `and` and `or` give the operand they evaluate last. */
  function EvalBinary(env: Env, l: Expr, op: BinaryOp, r: Expr, c: Ctx): (out: Out<Value>)
    ensures Fair(env.maxSteps, 0, c, out) && out.ctx.scope == c.scope
    decreases Left(env, c)
  {
    if op == AndOp || op == OrOp then EvalShort(env, l, op == AndOp, r, c)
    else
      var (vs, d) :- EvalAll(env, [l, r], c);
      Settle(Apply(env.py, op, vs[0], vs[1], d.heap), d)
  }

  function EvalShort(env: Env, l: Expr, goOn: bool, r: Expr, c: Ctx): (out: Out<Value>)
    ensures Fair(env.maxSteps, 0, c, out) && out.ctx.scope == c.scope
    decreases Left(env, c), 2
  {
    var (left, d) :- Eval(env, l, c);
    EvalRight(env, left, goOn, r, d)
  }

  /** `and` goes on to its right operand when the left one is true, and `or` when it is false. */
  function EvalRight(env: Env, left: Value, goOn: bool, r: Expr, c: Ctx): (out: Out<Value>)
    ensures Fair(env.maxSteps, 0, c, out) && out.ctx.scope == c.scope
    decreases Left(env, c), 1
  {
    if Truthy(left, c.heap) == goOn then Eval(env, r, c) else Got(left, c)
  }

  function EvalPrefix(env: Env, op: PrefixOp, e: Expr, c: Ctx): (r: Out<Value>)
    ensures Fair(env.maxSteps, 0, c, r) && r.ctx.scope == c.scope
    decreases Left(env, c)
  {
    var (v, d) :- Eval(env, e, c);
    Got(ApplyPrefix(env.py, op, v, d.heap), d)
  }

  function EvalCall(env: Env, f: string, args: seq<Expr>, c: Ctx): (r: Out<Value>)
    ensures Fair(env.maxSteps, 1, c, r) && r.ctx.scope == c.scope
    decreases Left(env, c)
  {
    var (vs, d) :- EvalAll(env, args, c);
    if f in UTILITIES then CallUtility(env, f, vs, d)
    else if f in d.functions then CallUser(env, d.functions[f], vs, Null, d)
    else if f in env.builtins then CallBuiltin(env, f, Null, vs, d)
    else Raised(ScriptFault("Unknown function: " + f), d)
  }

  // ----- pipelines -----

  function Pipeline(env: Env, commands: seq<Command>, stdin: Value, c: Ctx): (r: Out<Value>)
    ensures Fair(env.maxSteps, 0, c, r) && r.ctx.scope == c.scope
    decreases Left(env, c), |commands|
  {
    if commands == [] then Got(stdin, c)
    else
      var (v, d) :- RunCommand(env, commands[0], stdin, c);
      Pipeline(env, commands[1..], v, d)
  }

  function RunCommand(env: Env, command: Command, stdin: Value, c: Ctx): (r: Out<Value>)
    ensures Paid(env.maxSteps, c, r) && r.ctx.scope == c.scope
    decreases Left(env, c), 0
  {
    var (_, d) :- Tick(env, c);
    if command.cmd == CALL then EvalToText(env, command.cmdArgs, d)
    else
      var (vs, d) :- EvalAll(env, command.cmdArgs, d);
      Dispatch(env, command.cmd, vs, stdin, d)
  }

  function Dispatch(env: Env, name: string, args: seq<Value>, stdin: Value, c: Ctx): (r: Out<Value>)
    ensures Fair(env.maxSteps, 1, c, r) && r.ctx.scope == c.scope
    decreases Left(env, c)
  {
    if name in env.builtins then Wrapped(name, CallBuiltin(env, name, stdin, args, c))
    else if name in c.functions then CallUser(env, c.functions[name], args, stdin, c)
    else Raised(ScriptFault("Unknown command: " + name), c)
  }

  /** The text of a call that heads a pipeline. */
  function EvalToText(env: Env, args: seq<Expr>, c: Ctx): (r: Out<Value>)
    ensures Fair(env.maxSteps, 0, c, r) && r.ctx.scope == c.scope
    decreases Left(env, c)
  {
    if args == [] then Raised(OtherFault("list index out of range"), c)
    else
      var (v, d) :- Eval(env, args[0], c);
      match ToText(env.py, v, d.heap) case Gives(t) => Got(Str(t), d) case Fails(f) => Raised(f, d)
  }

  /** A call of a script's function: its variables start as a copy of the caller's, and the caller's
      come back however the body ends. */
  function CallUser(env: Env, fn: Fn, args: seq<Value>, stdin: Value, c: Ctx): (r: Out<Value>)
    ensures Fair(env.maxSteps, 0, c, r) && r.ctx.scope == c.scope
    decreases Left(env, c), |fn.body| + 1
  {
    if c.depth >= env.maxDepth then Raised(ScriptFault("Max call depth exceeded (" + Digits(env.maxDepth) + ")"), c)
    else
      var scope := Bind(c.scope, fn.params, args);
      var inner := if stdin.Null? then scope else scope[STDIN := stdin];
      var r := Block(env, fn.body, c.(depth := c.depth + 1, scope := inner));
      var d := r.ctx.(scope := c.scope, depth := r.ctx.depth - 1);
      match r
      case Got(flow, _) => Got(if flow.Return? then flow.v else Null, d)
      case Raised(f, _) => Raised(f, d)
  }

  // ----- whole runs -----

  const START := Ctx(map[], map[], [], 0, 0, {}, [], [], 0, 0, 0, 0)

  /** A program run to its end, to a `return` or to an error nothing catches. */
  function Run(env: Env, program: seq<Stmt>): Out<Flow> {
    Block(env, program, START)
  }
}
