/** What whole programs make of values where a test, a text, a key or an index is wanted, and of names that
    are defined twice. */
module Conversions {
  import opened Wrappers
  import opened Syntax
  import opened Values
  import opened Interpretation
  import opened Evaluation
  import opened Marks
  import opened Programs
  import opened Behaviours
  import opened Commands
  import opened Collections
  import opened Failures
  import opened Fuel

  // ----- expressions and tests -----

  lemma LetRuns(env: Env, x: string, e: Expr, v: Value, d: Ctx)
    requires 0 < env.maxSteps && Eval(env, e, After(START, 1)) == Got(v, d)
    ensures EndsWith(Run(env, [LetStmt(x, e)]), x, v)
  {
    hide *;
    AtStart(1);
    RunsAsBlock(env, [LetStmt(x, e)]);
    LetGives(env, x, e, START, v, d);
    OnlyOne(env, LetStmt(x, e), START);
    WithEnds(Run(env, [LetStmt(x, e)]), d, x, v);
  }

  /** A program computes what the mathematics of an expression says. */
  lemma ExpressionsAreComputed(env: Env, e: Expr)
    requires Meaning(e, map[]).Some? && Run(env, [LetStmt("r", e)]).ctx.steps <= env.maxSteps
    ensures EndsWith(Run(env, [LetStmt("r", e)]), "r", ValueOf(Meaning(e, map[]).value))
  {
    hide *;
    var k := 1 + Cost(e, map[]);
    var big := Limited(env, env.maxSteps + k);
    SameBeyond(env, [LetStmt("r", e)], k);
    LargerLimit(env, k);
    AtStart(1);
    AfterTwice(START, 1, Cost(e, map[]));
    ExpressionsMeanTheirMathematics(big, e, After(START, 1));
    LetRuns(big, "r", e, ValueOf(Meaning(e, map[]).value), After(START, k));
  }

  /** `if e { let k = 1 } else { let k = 2 }` */
  function Choosing(e: Expr): Stmt {
    IfStmt(e, [LetStmt("k", Lit(1))], [], Else([LetStmt("k", Lit(2))]))
  }

  lemma IfElse(env: Env, e: Expr, body: seq<Stmt>, other: seq<Stmt>, c: Ctx, v: Value, d: Ctx)
    requires c.steps < env.maxSteps && Eval(env, e, After(c, 1)) == Got(v, d)
    ensures Exec(env, IfStmt(e, body, [], Else(other)), c) == Block(env, if Truthy(v, d.heap) then body else other, d)
  {
    hide Eval, Block, Truthy, Debt, Credit;
    assert Tick(env, c) == Got((), After(c, 1));
    assert ExecElifs(env, [], Else(other), d) == Block(env, other, d);
  }

  lemma ChoiceRuns(env: Env, e: Expr, v: Value, d: Ctx)
    requires 0 < env.maxSteps && Eval(env, e, After(START, 1)) == Got(v, d) && d.steps + 2 <= env.maxSteps
    ensures EndsWith(Run(env, [Choosing(e)]), "k", IntValue(if Truthy(v, d.heap) then 1 else 2))
  {
    hide *;
    var k := if Truthy(v, d.heap) then 1 else 2;
    AtStart(1);
    ChoosingIs(e);
    RunsAsBlock(env, [Choosing(e)]);
    OnlyOne(env, Choosing(e), START);
    IfElse(env, e, [LetStmt("k", Lit(1))], [LetStmt("k", Lit(2))], START, v, d);
    LitMeans(k, d.scope);
    Integers(k, k);
    PlainLet(env, "k", Lit(k), d);
    OnlyOne(env, LetStmt("k", Lit(k)), d);
    WithEnds(Run(env, [Choosing(e)]), After(d, 2), "k", IntValue(k));
  }

  lemma ChoosingIs(e: Expr)
    ensures Choosing(e) == IfStmt(e, [LetStmt("k", Lit(1))], [], Else([LetStmt("k", Lit(2))]))
  {
  }

  /** Null, zero, false, the empty text and the text `false` choose the `else`, and every other such value
      the first block. */
  lemma ScalarsChoose(env: Env, e: Expr)
    requires Meaning(e, map[]).Some? && Run(env, [Choosing(e)]).ctx.steps <= env.maxSteps
    ensures EndsWith(Run(env, [Choosing(e)]), "k", IntValue(if Truth(Meaning(e, map[]).value) then 1 else 2))
  {
    hide *;
    var k := 3 + Cost(e, map[]);
    var big, p, d := Limited(env, env.maxSteps + k), Meaning(e, map[]).value, After(START, k - 2);
    SameBeyond(env, [Choosing(e)], k);
    LargerLimit(env, k);
    AtStart(1);
    AtStart(k - 2);
    AfterTwice(START, 1, Cost(e, map[]));
    ExpressionsMeanTheirMathematics(big, e, After(START, 1));
    TruthOf(p, d.heap);
    ChoiceRuns(big, e, ValueOf(p), d);
  }

  /** A list chooses the first block unless it is empty. */
  lemma ListsChoose(env: Env, xs: seq<int>)
    requires Run(env, [Choosing(ListLit(Numbers(xs)))]).ctx.steps <= env.maxSteps
    ensures EndsWith(Run(env, [Choosing(ListLit(Numbers(xs)))]), "k", IntValue(if xs == [] then 2 else 1))
  {
    hide *;
    var e, k := ListLit(Numbers(xs)), 4 + |xs|;
    var big, d := Limited(env, env.maxSteps + k), Holding(After(START, 2 + |xs|), Items(IntValues(xs)));
    SameBeyond(env, [Choosing(e)], k);
    LargerLimit(env, k);
    AtStart(1);
    ContainerTruth(xs, [], []);
    AfterTwice(START, 1, 1 + |xs|);
    ListGives(big, xs, After(START, 1));
    ChoiceRuns(big, e, List(0), d);
  }

  /** So does a map. */
  lemma MapsChoose(env: Env, keys: seq<string>, vals: seq<int>)
    requires |keys| == |vals| && Run(env, [Choosing(MapLit(PairsOf(keys, vals)))]).ctx.steps <= env.maxSteps
    ensures EndsWith(Run(env, [Choosing(MapLit(PairsOf(keys, vals)))]), "k", IntValue(if keys == [] then 2 else 1))
  {
    hide *;
    var e, k := MapLit(PairsOf(keys, vals)), 4 + |keys|;
    ContainerTruth([], keys, vals);
    var entries := Entries(PutAll([], keys, IntValues(vals)));
    var big, d := Limited(env, env.maxSteps + k), Holding(After(START, 2 + |keys|), entries);
    SameBeyond(env, [Choosing(e)], k);
    LargerLimit(env, k);
    AtStart(1);
    AfterTwice(START, 1, 1 + |keys|);
    MapGives(big, keys, vals, After(START, 1));
    ChoiceRuns(big, e, Dict(0), d);
  }

  lemma ContainerTruth(xs: seq<int>, keys: seq<string>, vals: seq<int>)
    requires |keys| == |vals|
    ensures var d := Holding(After(START, 2 + |xs|), Items(IntValues(xs)));
      Truthy(List(0), d.heap) == (xs != []) && d.steps == 2 + |xs|
    ensures |IntValues(vals)| == |vals|
    ensures var d := Holding(After(START, 2 + |keys|), Entries(PutAll([], keys, IntValues(vals))));
      Truthy(Dict(0), d.heap) == (keys != []) && d.steps == 2 + |keys|
    ensures |After(START, 1).heap| == 0
  {
    assert |IntValues(xs)| == |xs|;
    if keys != [] {
      PutAllInParts([], keys, IntValues(vals));
      hide PutAll;
    }
  }

  // ----- marks in texts -----

  function MarkedText(a: string, name: string, b: string): string {
    a + ("${" + name + "}" + b)
  }

  predicate IsMarkName(name: string) {
    name != "" && forall i :: 0 <= i < |name| ==> IsWordPart(name[i])
  }

  /** `let x = e`, unless it is left out, and `let r = "a${x}b"`. */
  function MarkProgram(given: bool, name: string, e: Expr, a: string, b: string): seq<Stmt> {
    (if given then [LetStmt(name, e)] else []) + [LetStmt("r", StringLit(MarkedText(a, name, b)))]
  }

  lemma MarkedGives(py: Runtime, a: string, name: string, b: string, scope: Scope, heap: Heap, p: Option<Plain>)
    requires NoMarks(a) && NoMarks(b) && IsMarkName(name)
    requires match p case None => name !in scope
                     case Some(p) => name in scope && scope[name] == ValueOf(p) && Word(p).Some?
    ensures Interpolate(py, MarkedText(a, name, b), scope, heap)
         == Gives(a + ((if p.Some? then Word(p.value).value else "") + b))
  {
    var rest := "${" + name + "}" + b;
    hide NoMarks, Word, ToText, Interpolate;
    TextStays(py, b, scope, heap);
    if p.Some? {
      WordsAreTexts(py, p.value, heap);
      MarkReplaced(py, name, b, scope, heap);
    } else {
      MarkDropped(py, name, b, scope, heap);
      assert "" + b == b;
    }
    TextBefore(py, a, rest, scope, heap);
  }

  lemma StringGives(env: Env, s: string, c: Ctx, t: string)
    requires c.steps < env.maxSteps && Interpolate(env.py, s, c.scope, c.heap) == Gives(t)
    ensures Eval(env, StringLit(s), c) == Got(Str(t), After(c, 1))
  {
    hide Debt, Credit, Interpolate;
    assert Tick(env, c) == Got((), After(c, 1));
  }

  lemma MarkRuns(env: Env, given: bool, name: string, e: Expr, a: string, b: string)
    requires NoMarks(a) && NoMarks(b) && IsMarkName(name) && Meaning(e, map[]).Some?
    requires Word(Meaning(e, map[]).value).Some? && 3 + Cost(e, map[]) <= env.maxSteps
    ensures EndsWith(Run(env, MarkProgram(given, name, e, a, b)), "r",
                     Str(a + ((if given then Word(Meaning(e, map[]).value).value else "") + b)))
  {
    hide *;
    var p, k := Meaning(e, map[]).value, Cost(e, map[]);
    var text, last := MarkedText(a, name, b), LetStmt("r", StringLit(MarkedText(a, name, b)));
    var t := a + ((if given then Word(p).value else "") + b);
    var c := if given then With(After(START, 1 + k), name, ValueOf(p)) else START;
    MarkParts(given, name, e, a, b);
    RunsAsBlock(env, MarkProgram(given, name, e, a, b));
    AtStart(1 + k);
    if given {
      WithKeeps(After(START, 1 + k), name, ValueOf(p));
      PlainLet(env, name, e, START);
      InOrder(env, LetStmt(name, e), [last], START);
    }
    AfterKeeps(c, 1);
    AfterTwice(c, 1, 1);
    MarkedGives(env.py, a, name, b, c.scope, After(c, 1).heap, if given then Some(p) else None);
    StringGives(env, text, After(c, 1), t);
    LetGives(env, "r", StringLit(text), c, Str(t), After(c, 2));
    OnlyOne(env, last, c);
    WithEnds(Run(env, MarkProgram(given, name, e, a, b)), After(c, 2), "r", Str(t));
  }

  lemma MarkParts(given: bool, name: string, e: Expr, a: string, b: string)
    ensures var last := LetStmt("r", StringLit(MarkedText(a, name, b)));
      MarkProgram(given, name, e, a, b) == if given then [LetStmt(name, e)] + [last] else [last]
  {
  }

  /** A mark in a text is replaced by the text of its variable: nothing for null, and nothing where there is no
      such variable. */
  lemma MarksAreReplaced(env: Env, given: bool, name: string, e: Expr, a: string, b: string)
    requires NoMarks(a) && NoMarks(b) && IsMarkName(name) && Meaning(e, map[]).Some?
    requires Word(Meaning(e, map[]).value).Some?
    requires Run(env, MarkProgram(given, name, e, a, b)).ctx.steps <= env.maxSteps
    ensures EndsWith(Run(env, MarkProgram(given, name, e, a, b)), "r",
                     Str(a + ((if given then Word(Meaning(e, map[]).value).value else "") + b)))
  {
    hide *;
    var k := 3 + Cost(e, map[]);
    SameBeyond(env, MarkProgram(given, name, e, a, b), k);
    LargerLimit(env, k);
    MarkRuns(Limited(env, env.maxSteps + k), given, name, e, a, b);
  }

  // ----- keys and indexes -----

  /** The key such a value is to a map: its text in Python. */
  function KeyText(p: Plain): Option<string> {
    match p
    case Nil => Some("None")
    case I(i) => Some(IntText(i))
    case B(b) => Some(if b then "True" else "False")
    case T(t) => Some(t)
    case R(_) => None
  }

  lemma KeysAreTexts(py: Runtime, p: Plain, heap: Heap)
    requires KeyText(p).Some?
    ensures Show(py, ValueOf(p), heap) == Gives(KeyText(p).value)
  {
    hide IntText;
  }

  /** `let m = {}`, `$m[e] = v`, `let r = $m[f]`. */
  function KeyProgram(e: Expr, v: int, f: Expr): seq<Stmt> {
    [LetStmt("m", MapLit([])), AssignStmt(IndexExpr(M, e), Lit(v)), LetStmt("r", IndexExpr(M, f))]
  }

  lemma KeyParts(e: Expr, v: int, f: Expr)
    ensures KeyProgram(e, v, f)
         == [LetStmt("m", MapLit([]))] + ([AssignStmt(IndexExpr(M, e), Lit(v))] + [LetStmt("r", IndexExpr(M, f))])
    ensures PairsOf([], []) == [] && PutAll([], [], IntValues([])) == []
    ensures M == VarRef("m") && "m" in map["m" := Dict(0)]
  {
  }

  /** A map holds `v` under a key. */
  function Holder(c: Ctx, key: string, v: int): Ctx {
    c.(heap := [Entries([Entry(key, IntValue(v))])])
  }

  lemma StoredUnder(py: Runtime, p: Plain, v: int, c: Ctx)
    requires KeyText(p).Some? && c.heap == [Entries([])]
    ensures IndexAssign(py, Dict(0), ValueOf(p), IntValue(v), c.heap)
         == Gives([Entries([Entry(KeyText(p).value, IntValue(v))])])
  {
    KeysAreTexts(py, p, c.heap);
    hide Show, KeyText;
    assert EntriesAt(c.heap, 0) == [];
    assert c.heap[0 := Entries([Entry(KeyText(p).value, IntValue(v))])]
        == [Entries([Entry(KeyText(p).value, IntValue(v))])];
  }

  lemma FoundUnder(py: Runtime, q: Plain, key: string, v: int, c: Ctx)
    requires KeyText(q).Some? && c.heap == [Entries([Entry(key, IntValue(v))])]
    ensures Index(py, Dict(0), ValueOf(q), c.heap)
         == Gives(if KeyText(q).value == key then IntValue(v) else Null)
  {
    KeysAreTexts(py, q, c.heap);
    hide Show, KeyText;
    assert EntriesAt(c.heap, 0) == [Entry(key, IntValue(v))];
    assert [Entry(key, IntValue(v))][1..] == [];
    assert Lookup([], KeyText(q).value) == Null;
  }

  lemma KeyStoredAs(env: Env, e: Expr, v: int, c: Ctx)
    requires c.heap == [Entries([])] && c.scope == map["m" := Dict(0)] && Meaning(e, c.scope).Some?
    requires KeyText(Meaning(e, c.scope).value).Some? && c.steps + 3 + Cost(e, c.scope) <= env.maxSteps
    ensures Exec(env, AssignStmt(IndexExpr(M, e), Lit(v)), c)
         == Got(Next, Holder(After(c, 3 + Cost(e, c.scope)), KeyText(Meaning(e, c.scope).value).value, v))
  {
    hide *;
    var p, k := Meaning(e, c.scope).value, Cost(e, c.scope);
    KeyParts(e, v, e);
    LitMeans(v, c.scope);
    Integers(v, v);
    AfterKeeps(c, 1);
    AfterKeeps(c, 2);
    AfterKeeps(c, 3);
    AfterKeeps(c, 3 + k);
    AfterTwice(c, 1, 1);
    AfterTwice(c, 2, 1);
    AfterTwice(c, 3, k);
    ExpressionsMeanTheirMathematics(env, Lit(v), After(c, 1));
    VariableGives(env, "m", After(c, 2));
    ExpressionsMeanTheirMathematics(env, e, After(c, 3));
    StoredUnder(env.py, p, v, After(c, 3 + k));
    StoreGives(env, M, e, Lit(v), c, IntValue(v), After(c, 2), Dict(0), After(c, 3), ValueOf(p), After(c, 3 + k));
    HolderIs(After(c, 3 + k), KeyText(p).value, v);
  }

  lemma HolderIs(c: Ctx, key: string, v: int)
    ensures Holder(c, key, v) == c.(heap := [Entries([Entry(key, IntValue(v))])])
    ensures var d := Holder(c, key, v); d.scope == c.scope && d.steps == c.steps
  {
  }

  lemma KeyReadAs(env: Env, f: Expr, key: string, v: int, c: Ctx)
    requires c.heap == [Entries([Entry(key, IntValue(v))])] && c.scope == map["m" := Dict(0)]
    requires Meaning(f, c.scope).Some? && KeyText(Meaning(f, c.scope).value).Some?
    requires c.steps + 3 + Cost(f, c.scope) <= env.maxSteps
    ensures EndsWith(Exec(env, LetStmt("r", IndexExpr(M, f)), c), "r",
                     if KeyText(Meaning(f, c.scope).value).value == key then IntValue(v) else Null)
  {
    hide *;
    var q, k := Meaning(f, c.scope).value, Cost(f, c.scope);
    var found := if KeyText(q).value == key then IntValue(v) else Null;
    KeyParts(f, v, f);
    AfterKeeps(c, 1);
    AfterKeeps(c, 2);
    AfterKeeps(c, 3);
    AfterKeeps(c, 3 + k);
    AfterTwice(c, 1, 1);
    AfterTwice(c, 2, 1);
    AfterTwice(c, 3, k);
    VariableGives(env, "m", After(c, 2));
    ExpressionsMeanTheirMathematics(env, f, After(c, 3));
    FoundUnder(env.py, q, key, v, After(c, 3 + k));
    SettledAs(found, After(c, 3 + k));
    IndexGives(env, M, f, After(c, 1), Dict(0), After(c, 3), ValueOf(q), After(c, 3 + k));
    LetGives(env, "r", IndexExpr(M, f), c, found, After(c, 3 + k));
    WithEnds(Exec(env, LetStmt("r", IndexExpr(M, f)), c), After(c, 3 + k), "r", found);
  }

  lemma SettledAs(v: Value, c: Ctx)
    ensures Settle(Gives(v), c) == Got(v, c)
  {
  }

  lemma KeyRuns(env: Env, e: Expr, v: int, f: Expr)
    requires var scope := map["m" := Dict(0)]; Meaning(e, scope).Some? && Meaning(f, scope).Some?
    requires var scope := map["m" := Dict(0)];
      && KeyText(Meaning(e, scope).value).Some? && KeyText(Meaning(f, scope).value).Some?
      && 8 + Cost(e, scope) + Cost(f, scope) <= env.maxSteps
    ensures var scope := map["m" := Dict(0)];
      EndsWith(Run(env, KeyProgram(e, v, f)), "r",
               if KeyText(Meaning(f, scope).value) == KeyText(Meaning(e, scope).value) then IntValue(v) else Null)
  {
    hide *;
    var scope: Scope := map["m" := Dict(0)];
    var c := With(Holding(After(START, 2), Entries([])), "m", Dict(0));
    var key := KeyText(Meaning(e, scope).value).value;
    var d := Holder(After(c, 3 + Cost(e, scope)), key, v);
    var make, store := LetStmt("m", MapLit([])), AssignStmt(IndexExpr(M, e), Lit(v));
    var read := LetStmt("r", IndexExpr(M, f));
    KeyParts(e, v, f);
    RunsAsBlock(env, KeyProgram(e, v, f));
    AtStart(1);
    EmptyMapMade();
    AfterTwice(START, 1, 1);
    MapGives(env, [], [], After(START, 1));
    LetGives(env, "m", MapLit([]), START, Dict(0), Holding(After(START, 2), Entries([])));
    InOrder(env, make, [store] + [read], START);
    AfterKeeps(c, 3 + Cost(e, scope));
    HolderIs(After(c, 3 + Cost(e, scope)), key, v);
    KeyStoredAs(env, e, v, c);
    InOrder(env, store, [read], c);
    KeyReadAs(env, f, key, v, d);
    OnlyOne(env, read, d);
  }

  lemma EmptyMapMade()
    ensures var c := With(Holding(After(START, 2), Entries([])), "m", Dict(0));
      c.heap == [Entries([])] && c.scope == map["m" := Dict(0)] && c.steps == 2
  {
  }

  /** Under a key a map gives back what was stored under a key of the same text, whatever its kind: `1` and
      `"1"` are one key, and `true` is the key `"True"`. */
  lemma KeysAreOneByText(env: Env, e: Expr, v: int, f: Expr)
    requires var scope := map["m" := Dict(0)]; Meaning(e, scope).Some? && Meaning(f, scope).Some?
    requires var scope := map["m" := Dict(0)];
      KeyText(Meaning(e, scope).value).Some? && KeyText(Meaning(f, scope).value).Some?
    requires Run(env, KeyProgram(e, v, f)).ctx.steps <= env.maxSteps
    ensures var scope := map["m" := Dict(0)];
      EndsWith(Run(env, KeyProgram(e, v, f)), "r",
               if KeyText(Meaning(f, scope).value) == KeyText(Meaning(e, scope).value) then IntValue(v) else Null)
  {
    hide *;
    var scope: Scope := map["m" := Dict(0)];
    var k := 8 + Cost(e, scope) + Cost(f, scope);
    SameBeyond(env, KeyProgram(e, v, f), k);
    LargerLimit(env, k);
    KeyRuns(Limited(env, env.maxSteps + k), e, v, f);
  }

  /** The place an index means: a real number is cut off towards zero, and a negative one counts from the end. */
  function PlaceOf(p: Plain, length: nat): Option<nat>
    requires !p.T? && !p.Nil?
  {
    var i := if p.R? then (if p.r < 0.0 then -((-p.r).Floor) else p.r.Floor) else Whole(p).value;
    if 0 <= i < length then Some(i) else if i < 0 <= length + i then Some(length + i) else None
  }

  lemma PlaceFound(py: Runtime, p: Plain, length: nat)
    requires !p.T? && !p.Nil?
    ensures ToInt(py, ValueOf(p)).Gives?
    ensures Position(ToInt(py, ValueOf(p)).value, length)
         == match PlaceOf(p, length) case Some(at) => Gives(at) case None => Fails(OtherFault("index out of range"))
  {
  }

  /** `let r = ".."[e]` */
  function CharProgram(t: string, e: Expr): seq<Stmt> {
    [LetStmt("r", IndexExpr(StringLit(t), e))]
  }

  lemma CharFound(py: Runtime, t: string, p: Plain, heap: Heap)
    requires !p.T? && !p.Nil?
    ensures Index(py, Str(t), ValueOf(p), heap) ==
      match PlaceOf(p, |t|)
      case Some(at) => Gives(Str([t[at]]))
      case None => Fails(OtherFault("index out of range"))
  {
    PlaceFound(py, p, |t|);
    hide ToInt, Position;
  }

  lemma CharGives(env: Env, t: string, e: Expr, c: Ctx)
    requires NoMarks(t) && Meaning(e, c.scope).Some? && !Meaning(e, c.scope).value.T?
    requires !Meaning(e, c.scope).value.Nil? && c.steps + 2 + Cost(e, c.scope) <= env.maxSteps
    ensures var d := After(c, 2 + Cost(e, c.scope));
      Eval(env, IndexExpr(StringLit(t), e), c) ==
      match PlaceOf(Meaning(e, c.scope).value, |t|)
      case Some(at) => Got(Str([t[at]]), d)
      case None => Raised(OtherFault("index out of range"), d)
  {
    hide *;
    var p, d := Meaning(e, c.scope).value, After(c, 2 + Cost(e, c.scope));
    AfterTwice(c, 1, 1);
    AfterTwice(c, 2, Cost(e, c.scope));
    TextGives(env, t, After(c, 1));
    ExpressionsMeanTheirMathematics(env, e, After(c, 2));
    IndexGives(env, StringLit(t), e, c, Str(t), After(c, 2), ValueOf(p), d);
    CharFound(env.py, t, p, d.heap);
    SettlesBoth(Index(env.py, Str(t), ValueOf(p), d.heap), d);
  }

  lemma SettlesBoth(a: Answer<Value>, c: Ctx)
    ensures Settle(a, c) == match a case Gives(v) => Got(v, c) case Fails(f) => Raised(f, c)
  {
  }

  /** An index into a text gives the character at the place it means, and out of range an error. */
  lemma CharactersAreGiven(env: Env, t: string, e: Expr)
    requires NoMarks(t) && Meaning(e, map[]).Some? && !Meaning(e, map[]).value.T? && !Meaning(e, map[]).value.Nil?
    requires Run(env, CharProgram(t, e)).ctx.steps <= env.maxSteps
    ensures var r := Run(env, CharProgram(t, e));
      match PlaceOf(Meaning(e, map[]).value, |t|)
      case Some(at) => EndsWith(r, "r", Str([t[at]]))
      case None => r.Raised? && r.fault.OtherFault?
  {
    hide *;
    var k, x := 3 + Cost(e, map[]), IndexExpr(StringLit(t), e);
    var big := Limited(env, env.maxSteps + k);
    CharProgramIs(t, e);
    SameBeyond(env, CharProgram(t, e), k);
    LargerLimit(env, k);
    AtStart(1);
    AfterTwice(START, 1, 2 + Cost(e, map[]));
    CharGives(big, t, e, After(START, 1));
    var r := Eval(big, x, After(START, 1));
    if PlaceOf(Meaning(e, map[]).value, |t|).Some? {
      LetRuns(big, "r", x, r.value, r.ctx);
    } else {
      RunsAsBlock(big, [LetStmt("r", x)]);
      LetRaises(big, "r", x, START, r.fault, r.ctx);
      OnlyOne(big, LetStmt("r", x), START);
    }
  }

  lemma CharProgramIs(t: string, e: Expr)
    ensures CharProgram(t, e) == [LetStmt("r", IndexExpr(StringLit(t), e))]
  {
  }
}
