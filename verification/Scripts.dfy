/** Scripts run on the workspace database: from source text to what other workspaces see. */
module Scripts {
  import opened Wrappers
  import opened Syntax
  import opened Values
  import opened Interpretation
  import opened Builtins
  import Conduct
  import Fuel
  import History
  import Interpreter
  import Lexer
  import Parser
  import Printer
  import Programs
  import Runs
  import S = Staging
  import SI = SourceInversion
  import W = Workspaces
  import Written

  // ----- the environment of a script -----

  function LoadFrom(store: GoodStore, workspace: string, path: string): Load {
    match ReadText(workspace, path, store)
    case Gives(text) =>
      (match SI.ParseSource(text) case Some(program) => Loaded(program) case None => Unparsable)
    case Fails(_) => Unreadable
  }

  function EnvOf(host: Host, store: GoodStore, workspace: string, maxSteps: nat, maxDepth: nat): Env {
    Env(host.py, host.readers + WRITERS,
        (name: string, stdin: Value, args: seq<Value>, heap: Heap, ws: string, deeds: seq<Deed>, web: nat) =>
          Builtin(host, name, stdin, args, heap, ws, Database(store, deeds), web),
        host.utility,
        (path: string, deeds: seq<Deed>) => LoadFrom(Database(store, deeds), workspace, path),
        workspace, maxSteps, maxDepth)
  }

  /** How a script ends: its text is not a program, or it ran. */
  datatype Ending = NotAProgram | Ran(out: Out<Flow>)

  function Script(env: Env, source: string): Ending {
    match SI.ParseSource(source) case None => NotAProgram case Some(program) => Ran(Run(env, program))
  }

  function DeedsOf(ending: Ending): seq<Deed> {
    if ending.Ran? then ending.out.ctx.journal else []
  }

  function After(store: GoodStore, ending: Ending): GoodStore {
    Database(store, DeedsOf(ending))
  }

  datatype ScriptResult = ScriptResult(output: string, variables: Scope, steps: nat)

  datatype ScriptError = SyntaxError | Uncaught(fault: Fault)

  function JoinLines(lines: seq<string>): string {
    if lines == [] then "" else if |lines| == 1 then lines[0] else lines[0] + "\n" + JoinLines(lines[1..])
  }

  /** What the caller of a script is told. */
  function ResultOf(ending: Ending): Result<ScriptResult, ScriptError> {
    match ending
    case NotAProgram => Failure(SyntaxError)
    case Ran(Raised(f, _)) => Failure(Uncaught(f))
    case Ran(Got(_, c)) => Success(ScriptResult(JoinLines(c.output), c.scope, c.steps))
  }

  // ----- what a script can do to the database -----

  /** Everything a script does to the database is done by builtins in its own workspace. */
  lemma ScriptsActInTheirWorkspace(host: Host, store: GoodStore, workspace: string, n: nat, d: nat, source: string)
    ensures var deeds := DeedsOf(Script(EnvOf(host, store, workspace, n, d), source));
      forall i :: 0 <= i < |deeds| ==> Proper(host, workspace, deeds[i])
  {
    var env := EnvOf(host, store, workspace, n, d);
    var rule := deed => Proper(host, workspace, deed);
    ObeysProper(host, store, workspace, n, d, rule);
    hide Proper, Conduct.Obeys, Run, EnvOf, SI.ParseSource;
    if SI.ParseSource(source).Some? { Conduct.RunsKeepTheRule(env, rule, SI.ParseSource(source).value); }
  }

  lemma ObeysProper(host: Host, store: GoodStore, workspace: string, n: nat, d: nat, rule: Deed -> bool)
    requires forall deed :: rule(deed) == Proper(host, workspace, deed)
    ensures Conduct.Obeys(EnvOf(host, store, workspace, n, d), rule)
  {
    hide Builtin, Proper;
    forall name, stdin, args, heap, deeds, web
      ensures Conduct.All(rule, Builtin(host, name, stdin, args, heap, workspace, Database(store, deeds), web).deeds)
    {
      CommandsAreProper(host, name, stdin, args, heap, workspace, Database(store, deeds), web);
    }
  }

  /** However a script ends, the database keeps its invariant and everything already stored, blobs stay
      under their own hashes, and every other workspace reads, lists and shows what it did before. */
  lemma ScriptsKeepToTheirWorkspace(host: Host, store: GoodStore, workspace: string, n: nat, d: nat, source: string,
                                    other: string, p: History.Path)
    requires other != workspace
    ensures var after := After(store, Script(EnvOf(host, store, workspace, n, d), source));
      && W.Good(store, after)
      && (S.Hashed(host.hash, store.blobs) ==> S.Hashed(host.hash, after.blobs))
      && W.ReadFile(after, other, p) == W.ReadFile(store, other, p)
      && W.ListFiles(after, other) == W.ListFiles(store, other)
      && W.TreeWorkspace(after, other) == W.TreeWorkspace(store, other)
  {
    hide Script, EnvOf, DeedsOf, Database, Proper, W.Good, S.Hashed, W.ReadFile, W.ListFiles, W.TreeWorkspace;
    var deeds := DeedsOf(Script(EnvOf(host, store, workspace, n, d), source));
    ScriptsActInTheirWorkspace(host, store, workspace, n, d, source);
    ProperDeedsAreIsolated(host, store, workspace, deeds, other, p);
  }

  lemma ProperDeedsAreIsolated(host: Host, store: GoodStore, workspace: string, deeds: seq<Deed>, other: string,
                               p: History.Path)
    requires other != workspace && forall i :: 0 <= i < |deeds| ==> Proper(host, workspace, deeds[i])
    ensures var after := Database(store, deeds);
      && W.Good(store, after)
      && (S.Hashed(host.hash, store.blobs) ==> S.Hashed(host.hash, after.blobs))
      && W.ReadFile(after, other, p) == W.ReadFile(store, other, p)
      && W.ListFiles(after, other) == W.ListFiles(store, other)
      && W.TreeWorkspace(after, other) == W.TreeWorkspace(store, other)
  {
    hide W.ReadFile, W.ListFiles, W.TreeWorkspace, W.Inv, W.Good, S.Hashed;
    var ops := OpsOf(deeds);
    forall i | 0 <= i < |ops| ensures !Runs.Touches(ops[i], other) && S.Hashes(host.hash, ops[i]) {
      assert ops[i] == OpOf(deeds[i]) && Proper(host, workspace, deeds[i]);
    }
    Runs.RunGood(store, ops);
    Runs.WorkspacesAreIsolated(store, ops, other, p);
    if S.Hashed(host.hash, store.blobs) { S.RunKeepsHashed(host.hash, store, ops); }
  }

  /** What was committed before a script reads the same after it. */
  lemma ScriptsKeepHistory(host: Host, store: GoodStore, workspace: string, n: nat, d: nat, source: string,
                           ws: string, c: History.CommitId, p: History.Path)
    requires ws in store.workspaces && c in store.commits
    ensures var after := After(store, Script(EnvOf(host, store, workspace, n, d), source));
      W.ReadFileAt(after, ws, p, c) == W.ReadFileAt(store, ws, p, c)
  {
    var ending := Script(EnvOf(host, store, workspace, n, d), source);
    Runs.HistoryIsImmutable(store, OpsOf(DeedsOf(ending)), ws, c, p);
  }

  /** A script that stays within its budget does the same under every larger one, to its output, its
      variables and the database. */
  lemma LargerBudgetsAgree(host: Host, store: GoodStore, workspace: string, n: nat, m: nat, d: nat, source: string)
    requires n <= m
    ensures var small := Script(EnvOf(host, store, workspace, n, d), source);
      var large := Script(EnvOf(host, store, workspace, m, d), source);
      small.Ran? && small.out.ctx.steps <= n ==>
        ResultOf(large) == ResultOf(small) && After(store, large) == After(store, small)
  {
    var env := EnvOf(host, store, workspace, n, d);
    var program := SI.ParseSource(source);
    if program.Some? {
      Fuel.LargerBudgetChangesNothing(env, m, program.value);
      assert Fuel.Limited(env, m) == EnvOf(host, store, workspace, m, d);
    }
  }

  /** A program printed as text and run as a script is the program run, and a file that holds the
      text is imported as the program. */
  lemma PrintedProgramsRun(style: Printer.Style, env: Env, program: seq<Stmt>)
    requires SI.BlockNamed(program) && Printer.BlockPrintable(program)
    ensures Script(env, SI.SourceOf(style, program)) == Ran(Run(env, program))
  {
    SI.SourceInverts(style, program);
  }

  // ----- a script from text to result -----

  /** The factorial, written as text in any style and run as a script, tells its caller `n!`. */
  lemma FactorialScript(host: Host, store: GoodStore, workspace: string, maxSteps: nat, maxDepth: nat,
                        style: Printer.Style, n: int)
    requires Programs.FactDepth(n) < maxDepth && 10 + 11 * Programs.FactDepth(n) <= maxSteps
    ensures Printer.BlockPrintable(Programs.FactProgram(n))
    ensures var env := EnvOf(host, store, workspace, maxSteps, maxDepth);
      var r := ResultOf(Script(env, SI.SourceOf(style, Programs.FactProgram(n))));
      r.Success? && "r" in r.value.variables && r.value.variables["r"] == Number(Int(Programs.Factorial(n)))
  {
    var env := EnvOf(host, store, workspace, maxSteps, maxDepth);
    Written.FactorialIsWritten(n);
    PrintedProgramsRun(style, env, Programs.FactProgram(n));
    Programs.FactorialIsComputed(env, n);
    hide Run, Programs.FactProgram, Programs.Factorial;
  }

  // ----- reading a script -----

  lemma {:induction false} TokensAreTerminated(s: string)
    ensures var ts := Lexer.LexAll(s); ts.Some? ==> Parser.Terminated(ts.value)
    decreases |s|
  {
    hide Lexer.First;
    if s != [] {
      var first := Lexer.First(s);
      if s[0] == '\n' || Lexer.IsSpace(s[0]) {
        TokensAreTerminated(s[1..]);
      } else if s[0] == '#' {
        TokensAreTerminated(s[1 + Lexer.LineLength(s[1..])..]);
      } else if first.Lexed? {
        FirstIsNoEnd(s);
        TokensAreTerminated(first.rest);
      }
    }
  }

  lemma FirstIsNoEnd(s: string)
    requires s != []
    ensures Lexer.First(s).Lexed? ==> Lexer.First(s).value != EOF
  {
  }

  /** A source text to a syntax tree, by the lexer and then the parser. */
  method Parse(source: string) returns (program: Option<seq<Stmt>>)
    ensures program == SI.ParseSource(source)
  {
    var tokens := Lexer.Tokenize(source);
    if tokens.None? { return None; }
    TokensAreTerminated(source);
    var parser := new Parser.Parser(tokens.value);
    var r := parser.Parse();
    program := if r.Ok? then Some(r.value) else None;
  }

  /** Reads a script and runs it on a new interpreter. */
  method ExecuteScript(env: Env, source: string) returns (r: Result<ScriptResult, ScriptError>, deeds: seq<Deed>)
    ensures r == ResultOf(Script(env, source)) && deeds == DeedsOf(Script(env, source))
  {
    hide Run, Block;
    var program := Parse(source);
    if program.None? { return Failure(SyntaxError), []; }
    var interpreter := new Interpreter.Interpreter(env);
    var out := interpreter.RunProgram(program.value);
    deeds := interpreter.journal;
    match out
    case Failure(f) => r := Failure(Uncaught(f));
    case Success(_) =>
      var output := JoinLines(interpreter.output);
      r := Success(ScriptResult(output, interpreter.scope, interpreter.stepCount));
  }
}
