/** What whole programs do with errors: which one comes first, which can be caught, and what an import
    that fails leaves behind. */
module Failures {
  import opened Wrappers
  import opened Syntax
  import opened Values
  import opened Interpretation
  import opened Evaluation
  import opened Programs
  import opened Behaviours
  import opened Fuel

  // ----- one statement in a `try` -----

  /** `try { s } catch e { let m = $e }` */
  function Trying(s: Stmt): seq<Stmt> {
    [TryCatch([s], "e", HANDLER)]
  }

  /** The handler ran, with this message. */
  predicate CaughtAs(r: Out<Flow>, message: string) {
    EndsWith(r, "m", Str(message))
  }

  /** A script's or a builtin's error is caught with its message, any other is not. */
  lemma TryingRuns(env: Env, s: Stmt, f: Fault, d: Ctx)
    requires 2 <= env.maxSteps && d.steps + 2 <= env.maxSteps
    requires Exec(env, s, After(START, 1)) == Raised(f, d) && !f.StepLimit?
    ensures var r := Run(env, Trying(s));
      if f.OtherFault? then r == Raised(f, d) else CaughtAs(r, f.text)
  {
    hide *;
    var attempt, h := TryCatch([s], "e", HANDLER), if f.OtherFault? then d else With(d, "e", Str(f.text));
    TryingParts(s);
    RunsAsBlock(env, Trying(s));
    AtStart(1);
    OnlyOne(env, attempt, START);
    TryGoes(env, [s], "e", HANDLER, START);
    OnlyOne(env, s, After(START, 1));
    if !f.OtherFault? {
      WithKeeps(d, "e", Str(f.text));
      AfterKeeps(h, 1);
      AfterTwice(h, 1, 1);
      VariableGives(env, "e", After(h, 1));
      LetGives(env, "m", VarRef("e"), h, Str(f.text), After(h, 2));
      OnlyOne(env, LetStmt("m", VarRef("e")), h);
      WithEnds(Run(env, Trying(s)), After(h, 2), "m", Str(f.text));
      CaughtMeans(Run(env, Trying(s)), f.text);
    }
  }

  lemma TryingParts(s: Stmt)
    ensures Trying(s) == [TryCatch([s], "e", HANDLER)] && HANDLER == [LetStmt("m", VarRef("e"))]
  {
  }

  lemma CaughtMeans(r: Out<Flow>, message: string)
    ensures CaughtAs(r, message) <==> EndsWith(r, "m", Str(message))
  {
  }

  // ----- which error comes first -----

  /** A division by zero. */
  function Bad(n: int): Expr {
    Quotient(n, 0)
  }

  const UNDEFINED := VarRef("zz")

  /** `n / 0 + $zz`, or the other way round. */
  function BadSum(n: int, first: bool): Expr {
    if first then BinOp(Bad(n), AddOp, UNDEFINED) else BinOp(UNDEFINED, AddOp, Bad(n))
  }

  lemma SumRaises(env: Env, n: int, first: bool, c: Ctx)
    requires c.steps + 4 <= env.maxSteps && c.scope == map[] && c.functions == map[]
    ensures var r := Eval(env, BadSum(n, first), c);
      && r.Raised? && r.fault == ScriptFault(if first then ZERO else "Undefined variable: zz")
      && r.ctx.steps <= c.steps + 4
  {
    var u := UNDEFINED;
    assert u == VarRef("zz");
    assert BadSum(n, first) == if first then BinOp(Bad(n), AddOp, u) else BinOp(u, AddOp, Bad(n));
    assert Bad(n) == Quotient(n, 0);
    hide *;
    AfterKeeps(c, 1);
    AfterKeeps(c, 2);
    AfterKeeps(c, 4);
    AfterTwice(c, 1, 3);
    AfterTwice(c, 1, 1);
    if first {
      QuotientGives(env, n, 0, After(c, 1));
      LeftRaises(env, Bad(n), AddOp, u, c, ScriptFault(ZERO), After(c, 4));
    } else {
      UndefinedRaises(env, "zz", After(c, 1));
      LeftRaises(env, u, AddOp, Bad(n), c, ScriptFault("Undefined variable: " + "zz"), After(c, 2));
      assert "Undefined variable: " + "zz" == "Undefined variable: zz";
    }
  }

  /** Operands are evaluated from left to right: the left one's error is the one that is raised. */
  lemma LeftOperandComesFirst(env: Env, n: int, first: bool)
    requires 10 <= env.maxSteps
    ensures var s := LetStmt("r", BadSum(n, first));
      CaughtAs(Run(env, Trying(s)), if first then ZERO else "Undefined variable: zz")
  {
    var c := After(START, 1);
    assert After(c, 1).scope == map[] && After(c, 1).functions == map[] && After(c, 1).steps == 2;
    hide *;
    SumRaises(env, n, first, After(c, 1));
    var r := Eval(env, BadSum(n, first), After(c, 1));
    AtStart(1);
    LetRaises(env, "r", BadSum(n, first), c, r.fault, r.ctx);
    TryingRuns(env, LetStmt("r", BadSum(n, first)), r.fault, r.ctx);
  }

  /** The value that is assigned comes before the place: `$zz[0] = n / 0` is a division by zero. */
  lemma ValueComesBeforePlace(env: Env, n: int)
    requires 10 <= env.maxSteps
    ensures CaughtAs(Run(env, Trying(AssignStmt(IndexExpr(UNDEFINED, Lit(0)), Bad(n)))), ZERO)
  {
    var c, place := After(START, 1), IndexExpr(UNDEFINED, Lit(0));
    assert Bad(n) == Quotient(n, 0) && After(c, 1).steps == 2 && After(After(c, 1), 3).steps == 5;
    hide *;
    AtStart(1);
    QuotientGives(env, n, 0, After(c, 1));
    AssignRaises(env, place, Bad(n), c, ScriptFault(ZERO), After(After(c, 1), 3));
    TryingRuns(env, AssignStmt(place, Bad(n)), ScriptFault(ZERO), After(After(c, 1), 3));
  }

  // ----- errors of builtins -----

  /** What the builtin `f` answers at the start of a script. */
  function Answered(env: Env): Effect {
    env.command("f", Null, [], [], env.workspace, [], 0)
  }

  /** The builtin as a command, or in a call. */
  function Using(call: bool): Stmt {
    ExprStmt(if call then FnCallExpr("f", []) else PipelineExpr([Command("f", [])]))
  }

  /** The fault that comes out: as it is from a call, and from a command, unless it is a builtin's own
      error, a script error that names the builtin. */
  function Outcoming(f: Fault, call: bool): Fault {
    if call || f.BuiltinFault? then f else ScriptFault("Error in builtin 'f'")
  }

  lemma UsingRaises(env: Env, call: bool, c: Ctx)
    requires "f" in env.builtins && Answered(env).answer.Fails? && 4 <= env.maxSteps && c == After(START, 1)
    ensures var r := Exec(env, Using(call), c);
      r.Raised? && r.fault == Outcoming(Answered(env).answer.fault, call) && r.ctx.steps <= 4
  {
    assert Tick(env, c) == Got((), After(c, 1));
    assert Tick(env, After(c, 1)) == Got((), After(c, 2));
    assert After(c, 2).heap == [] && After(c, 2).journal == [];
    assert After(c, 2).web == 0 && After(c, 2).functions == map[];
    var d := if call then After(c, 2) else After(c, 3);
    var b := CallBuiltin(env, "f", Null, [], d);
    assert b.Raised? && b.fault == Answered(env).answer.fault && b.ctx.steps == d.steps;
    NoValues(env, d);
    if call {
      assert Eval(env, FnCallExpr("f", []), After(c, 1)) == b by { hide CallBuiltin, Debt, Credit; }
    } else {
      assert Tick(env, After(c, 2)) == Got((), d);
      assert RunCommand(env, Command("f", []), Null, After(c, 2)) == Wrapped("f", b) by {
        hide CallBuiltin, Wrapped, Debt, Credit;
      }
      FirstFails(env, Command("f", []), After(c, 1), Wrapped("f", b));
      assert "Error in builtin '" + "f" + "'" == "Error in builtin 'f'";
    }
    hide Eval, RunCommand, CallBuiltin, Debt, Credit;
  }

  lemma FirstFails(env: Env, command: Command, c: Ctx, r: Out<Value>)
    requires r.Raised? && c.steps < env.maxSteps && RunCommand(env, command, Null, After(c, 1)) == r
    ensures Eval(env, PipelineExpr([command]), c) == r
  {
    hide RunCommand, Debt, Credit;
    assert Tick(env, c) == Got((), After(c, 1));
    assert Pipeline(env, [command], Null, After(c, 1)) == r;
  }

  /** A builtin's own error can be caught however it is used; any other error of it only when it is used as a
      command. */
  lemma BuiltinErrors(env: Env, call: bool)
    requires "f" in env.builtins && Answered(env).answer.Fails? && 6 <= env.maxSteps
    ensures var f, r := Outcoming(Answered(env).answer.fault, call), Run(env, Trying(Using(call)));
      if f.OtherFault? then r.Raised? && r.fault == f else CaughtAs(r, f.text)
  {
    hide Exec, Answered, Outcoming, Using, Run, Trying, CaughtAs;
    UsingRaises(env, call, After(START, 1));
    var r := Exec(env, Using(call), After(START, 1));
    TryingRuns(env, Using(call), r.fault, r.ctx);
  }

  // ----- imports that fail -----

  /** `try { import path } catch e { let m = $e }`, `import path`, `let k = 1` */
  function FailingImports(path: string): seq<Stmt> {
    Trying(ImportStmt(path)) + ([ImportStmt(path)] + [LetStmt("k", Lit(1))])
  }

  lemma ImportRaises(env: Env, path: string, c: Ctx)
    requires c.steps < env.maxSteps && path !in c.imported && !env.load(path, c.journal).Loaded?
    ensures
      var why := if env.load(path, c.journal).Unreadable? then "import: cannot read '" else "import: parse error in '";
      Exec(env, ImportStmt(path), c)
        == Raised(ScriptFault(why + path + "'"), After(c, 1).(imported := c.imported + {path}))
  {
    hide Debt, Credit;
    assert Tick(env, c) == Got((), After(c, 1));
  }

  lemma FailingParts(path: string)
    ensures FailingImports(path)
         == [TryCatch([ImportStmt(path)], "e", HANDLER)] + ([ImportStmt(path)] + [LetStmt("k", Lit(1))])
    ensures HANDLER == [LetStmt("m", VarRef("e"))]
    ensures START.steps == 0 && START.imported == {} && START.journal == []
    ensures {} + {path} == {path}
  {
  }

  /** The context in which the handler ends. */
  function Handled(path: string, text: string): Ctx {
    With(After(With(After(START, 2).(imported := {path}), "e", Str(text)), 2), "m", Str(text))
  }

  lemma MessageKept(path: string, text: string)
    ensures var d := After(START, 2).(imported := {path});
      var h := With(d, "e", Str(text));
      && d == After(After(START, 1), 1).(imported := {path}) && After(START, 1).imported == {}
      && After(START, 1).steps == 1 && After(START, 1).journal == []
      && h.steps == 2 && After(h, 1).steps == 3 && After(After(h, 1), 1) == After(h, 2)
      && "e" in After(h, 1).scope && After(h, 1).scope["e"] == Str(text)
    ensures var e := Handled(path, text);
      && e == With(After(With(After(START, 2).(imported := {path}), "e", Str(text)), 2), "m", Str(text))
      && e.steps == 4 && path in e.imported && After(e, 1).steps == 5 && After(e, 1).imported == e.imported
      && "m" in After(e, 1).scope && After(e, 1).scope["m"] == Str(text)
      && "m" in After(After(e, 1), 2).scope && After(After(e, 1), 2).scope["m"] == Str(text)
  {
  }

  lemma BothEnd(r: Out<Flow>, c: Ctx, x: string, v: Value, y: string, w: Value)
    requires r == Got(Next, With(c, x, v)) && x != y && y in c.scope && c.scope[y] == w
    ensures EndsWith(r, x, v) && EndsWith(r, y, w)
  {
  }

  lemma FailingImportsRun(env: Env, path: string)
    requires !env.load(path, []).Loaded? && 10 <= env.maxSteps
    ensures var why := if env.load(path, []).Unreadable? then "import: cannot read '" else "import: parse error in '";
      var r := Run(env, FailingImports(path));
      EndsWith(r, "m", Str(why + path + "'")) && EndsWith(r, "k", IntValue(1))
  {
    hide *;
    var why := if env.load(path, []).Unreadable? then "import: cannot read '" else "import: parse error in '";
    var text := why + path + "'";
    var imp, attempt, last := ImportStmt(path), TryCatch([ImportStmt(path)], "e", HANDLER), LetStmt("k", Lit(1));
    var d := After(START, 2).(imported := {path});
    var h := With(d, "e", Str(text));
    var e := Handled(path, text);
    var f := After(e, 1);
    RunsAsBlock(env, FailingImports(path));
    FailingParts(path);
    MessageKept(path, text);
    LitMeans(1, f.scope);
    Integers(1, 1);
    TryGoes(env, [imp], "e", HANDLER, START);
    OnlyOne(env, imp, After(START, 1));
    ImportRaises(env, path, After(START, 1));
    VariableGives(env, "e", After(h, 1));
    LetGives(env, "m", VarRef("e"), h, Str(text), After(h, 2));
    OnlyOne(env, LetStmt("m", VarRef("e")), h);
    InOrder(env, attempt, [imp] + [last], START);
    ImportGoes(env, path, e);
    InOrder(env, imp, [last], e);
    PlainLet(env, "k", Lit(1), f);
    OnlyOne(env, last, f);
    BothEnd(Run(env, FailingImports(path)), After(f, 2), "k", IntValue(1), "m", Str(text));
  }

  /** A file that cannot be read or parsed is an error once, with a message that says which, and counts as
      imported afterwards. */
  lemma FailedImportsCount(env: Env, path: string)
    requires !env.load(path, []).Loaded? && Run(env, FailingImports(path)).ctx.steps <= env.maxSteps
    ensures var why := if env.load(path, []).Unreadable? then "import: cannot read '" else "import: parse error in '";
      var r := Run(env, FailingImports(path));
      EndsWith(r, "m", Str(why + path + "'")) && EndsWith(r, "k", IntValue(1))
  {
    hide *;
    SameBeyond(env, FailingImports(path), 10);
    LargerLimit(env, 10);
    FailingImportsRun(Limited(env, env.maxSteps + 10), path);
  }
}
