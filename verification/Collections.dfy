/** What whole programs do with lists that two variables share, with maps, with pipelines and with names
    that stand for several things. */
module Collections {
  import opened Wrappers
  import opened Syntax
  import opened Values
  import opened Interpretation
  import opened Evaluation
  import opened Marks
  import opened Programs
  import opened Behaviours
  import opened Commands
  import opened Fuel

  // ----- a list under two names -----

  const A := VarRef("a")
  const BB := VarRef("b")

  /** `let a = [..]`, `let b = $a`, `$b[i] = v`, `append($b, w)`. */
  function ShareProgram(xs: seq<int>, i: nat, v: int, w: int): seq<Stmt> {
    [LetStmt("a", ListLit(Numbers(xs))), LetStmt("b", A), AssignStmt(IndexExpr(BB, Lit(i)), Lit(v)),
     ExprStmt(FnCallExpr("append", [BB, Lit(w)]))]
  }

  /** Both names stand for one list, which shows what was done under either. */
  predicate SharedList(r: Out<Flow>, items: seq<int>) {
    && EndsWith(r, "a", List(0)) && EndsWith(r, "b", List(0))
    && r.ctx.heap == [Items(IntValues(items))]
  }

  lemma StoreRuns(env: Env, xs: seq<int>, i: nat, v: int, c: Ctx)
    requires i < |xs| && c.heap == [Items(IntValues(xs))] && "b" in c.scope && c.scope["b"] == List(0)
    requires c.steps + 4 <= env.maxSteps
    ensures Exec(env, AssignStmt(IndexExpr(BB, Lit(i)), Lit(v)), c)
         == Got(Next, After(c, 4).(heap := [Items(IntValues(xs[i := v]))]))
  {
    LitMeans(v, c.scope);
    LitMeans(i, c.scope);
    Integers(i, v);
    assert ItemsAt(c.heap, 0) == IntValues(xs);
    assert IntValues(xs)[i := IntValue(v)] == IntValues(xs[i := v]);
    assert Write(c.heap, 0, Items(IntValues(xs[i := v]))) == [Items(IntValues(xs[i := v]))];
    hide Eval, Exec, Meaning, Cost;
    ExpressionsMeanTheirMathematics(env, Lit(v), After(c, 1));
    VariableGives(env, "b", After(c, 2));
    ExpressionsMeanTheirMathematics(env, Lit(i), After(c, 3));
    StoreGives(env, BB, Lit(i), Lit(v), c, IntValue(v), After(c, 2), List(0), After(c, 3), IntValue(i), After(c, 4));
  }

  lemma AppendRuns(env: Env, xs: seq<int>, w: int, c: Ctx)
    requires c.heap == [Items(IntValues(xs))] && "b" in c.scope && c.scope["b"] == List(0)
    requires c.steps + 4 <= env.maxSteps
    ensures var r := Exec(env, ExprStmt(FnCallExpr("append", [BB, Lit(w)])), c);
      && r.Got? && r.value.Next? && r.ctx.scope == c.scope && r.ctx.steps == c.steps + 4
      && r.ctx.heap == [Items(IntValues(xs + [w]))]
  {
    assert BB == VarRef("b");
    hide *;
    var d := After(c, 4);
    LitMeans(w, c.scope);
    Integers(w, w);
    AfterTwice(c, 2, 1);
    AfterTwice(c, 3, 1);
    AfterKeeps(c, 2);
    AfterKeeps(c, 3);
    AfterKeeps(c, 4);
    VariableGives(env, "b", After(c, 2));
    ExpressionsMeanTheirMathematics(env, Lit(w), After(c, 3));
    AllOfTwo(env, BB, Lit(w), After(c, 2));
    Appends(env, xs, w, d);
    CallsUtility(env, "append", [BB, Lit(w)], c, [List(0), IntValue(w)], d);
    CallStatement(env, FnCallExpr("append", [BB, Lit(w)]), c, CallUtility(env, "append", [List(0), IntValue(w)], d));
  }

  lemma Appends(env: Env, xs: seq<int>, w: int, d: Ctx)
    requires d.heap == [Items(IntValues(xs))]
    ensures var r := CallUtility(env, "append", [List(0), IntValue(w)], d);
      && r.Got? && r.value == List(0) && r.ctx.scope == d.scope && r.ctx.steps == d.steps
      && r.ctx.heap == [Items(IntValues(xs + [w]))]
  {
    assert ItemsAt(d.heap, 0) == IntValues(xs);
    assert IntValues(xs) + [IntValue(w)] == IntValues(xs + [w]);
    assert Write(d.heap, 0, Items(IntValues(xs + [w]))) == [Items(IntValues(xs + [w]))];
    hide Debt, Credit;
  }

  lemma CallsUtility(env: Env, f: string, es: seq<Expr>, c: Ctx, vs: seq<Value>, d: Ctx)
    requires f == "append" && c.steps + 1 < env.maxSteps && EvalAll(env, es, After(c, 2)) == Got(vs, d)
    ensures Eval(env, FnCallExpr(f, es), After(c, 1)) == CallUtility(env, f, vs, d)
  {
    hide EvalAll, CallUtility, CallUser, CallBuiltin, Debt, Credit;
    assert Tick(env, After(c, 1)) == Got((), After(c, 2));
  }

  lemma CallStatement(env: Env, e: Expr, c: Ctx, r: Out<Value>)
    requires c.steps < env.maxSteps && Eval(env, e, After(c, 1)) == r && r.Got? && !r.value.Str?
    ensures Exec(env, ExprStmt(e), c) == Got(Next, r.ctx)
  {
    hide Eval, Debt, Credit;
    assert Tick(env, c) == Got((), After(c, 1));
  }

  lemma ShareRuns(env: Env, xs: seq<int>, i: nat, v: int, w: int)
    requires i < |xs| && 12 + |xs| <= env.maxSteps
    ensures SharedList(Run(env, ShareProgram(xs, i, v, w)), xs[i := v] + [w])
  {
    var c := With(Holding(After(START, 2 + |xs|), Items(IntValues(xs))), "a", List(0));
    var d := With(After(c, 2), "b", List(0));
    var e := After(d, 4).(heap := [Items(IntValues(xs[i := v]))]);
    var list, share := LetStmt("a", ListLit(Numbers(xs))), LetStmt("b", A);
    var store, add := AssignStmt(IndexExpr(BB, Lit(i)), Lit(v)), ExprStmt(FnCallExpr("append", [BB, Lit(w)]));
    assert ShareProgram(xs, i, v, w) == [list] + ([share] + ([store] + [add]));
    assert c.heap == [Items(IntValues(xs))];
    hide Exec, Eval, Block;
    ListGives(env, xs, After(START, 1));
    LetGives(env, "a", ListLit(Numbers(xs)), START, List(0), Holding(After(START, 2 + |xs|), Items(IntValues(xs))));
    InOrder(env, list, [share] + ([store] + [add]), START);
    VariableGives(env, "a", After(c, 1));
    LetGives(env, "b", A, c, List(0), After(c, 2));
    InOrder(env, share, [store] + [add], c);
    StoreRuns(env, xs, i, v, d);
    InOrder(env, store, [add], d);
    AppendRuns(env, xs[i := v], w, e);
    OnlyOne(env, add, e);
  }

  /** A list is shared, not copied: what is stored and appended under one name shows under the other. */
  lemma ListsAreShared(env: Env, xs: seq<int>, i: nat, v: int, w: int)
    requires i < |xs| && Run(env, ShareProgram(xs, i, v, w)).ctx.steps <= env.maxSteps
    ensures SharedList(Run(env, ShareProgram(xs, i, v, w)), xs[i := v] + [w])
  {
    hide *;
    SameBeyond(env, ShareProgram(xs, i, v, w), 12 + |xs|);
    LargerLimit(env, 12 + |xs|);
    ShareRuns(Limited(env, env.maxSteps + (12 + |xs|)), xs, i, v, w);
  }

  // ----- maps -----

  /** The pairs of a map literal. */
  function PairsOf(keys: seq<string>, vals: seq<int>): seq<Pair>
    requires |keys| == |vals|
  {
    seq(|keys|, i requires 0 <= i < |keys| => Pair(keys[i], Lit(vals[i])))
  }

  /** The last value a key is given, or null. */
  function LastGiven(keys: seq<string>, vals: seq<int>, key: string): Value
    requires |keys| == |vals|
  {
    if keys == [] then Null
    else if keys[|keys| - 1] == key then IntValue(vals[|vals| - 1])
    else LastGiven(keys[..|keys| - 1], vals[..|vals| - 1], key)
  }

  lemma {:induction false} PutLookup(entries: seq<Entry>, key: string, v: Value, other: string)
    ensures Lookup(Put(entries, key, v), other) == if other == key then v else Lookup(entries, other)
  {
    if entries != [] && entries[0].key != key {
      PutLookup(entries[1..], key, v, other);
      assert ([entries[0]] + Put(entries[1..], key, v))[1..] == Put(entries[1..], key, v);
    } else if entries != [] {
      assert ([Entry(key, v)] + entries[1..])[1..] == entries[1..];
    }
  }

  lemma {:induction false} PutAllInParts(entries: seq<Entry>, keys: seq<string>, vals: seq<Value>)
    requires |keys| == |vals| > 0
    ensures var n := |keys| - 1;
      PutAll(entries, keys, vals) == Put(PutAll(entries, keys[..n], vals[..n]), keys[n], vals[n])
    decreases |keys|
  {
    var n := |keys| - 1;
    if n > 0 {
      PutAllInParts(Put(entries, keys[0], vals[0]), keys[1..], vals[1..]);
      assert keys[1..][..n - 1] == keys[..n][1..] && vals[1..][..n - 1] == vals[..n][1..];
      assert keys[..n][0] == keys[0] && vals[..n][0] == vals[0];
    } else {
      assert keys[1..] == [] && keys[..n] == [];
      assert PutAll(Put(entries, keys[0], vals[0]), [], vals[1..]) == Put(entries, keys[0], vals[0]);
    }
  }

  lemma {:induction false} LiteralLookup(keys: seq<string>, vals: seq<int>, key: string)
    requires |keys| == |vals|
    ensures Lookup(PutAll([], keys, IntValues(vals)), key) == LastGiven(keys, vals, key)
    decreases |keys|
  {
    if keys != [] {
      var n := |keys| - 1;
      PutAllInParts([], keys, IntValues(vals));
      assert IntValues(vals)[..n] == IntValues(vals[..n]);
      PutLookup(PutAll([], keys[..n], IntValues(vals[..n])), keys[n], IntValue(vals[n]), key);
      LiteralLookup(keys[..n], vals[..n], key);
    }
  }

  const M := VarRef("m")

  /** `let m = {..}`, `$m["k"] = v`, `let r = $m["j"]`. */
  function MapProgram(keys: seq<string>, vals: seq<int>, k: string, v: int, j: string): seq<Stmt>
    requires |keys| == |vals|
  {
    [LetStmt("m", MapLit(PairsOf(keys, vals))), AssignStmt(IndexExpr(M, StringLit(k)), Lit(v)),
     LetStmt("r", IndexExpr(M, StringLit(j)))]
  }

  lemma MapGives(env: Env, keys: seq<string>, vals: seq<int>, c: Ctx)
    requires |keys| == |vals| && c.steps + 1 + |keys| <= env.maxSteps
    ensures Eval(env, MapLit(PairsOf(keys, vals)), c)
         == Got(Dict(|c.heap|), Holding(After(c, 1 + |keys|), Entries(PutAll([], keys, IntValues(vals)))))
  {
    var pairs := PairsOf(keys, vals);
    assert Vals(pairs) == Numbers(vals) && PairKeys(pairs) == keys;
    hide Eval, EvalAll, Debt, Credit, PutAll, Tick;
    MapSteps(env, pairs, c);
    AllNumbers(env, vals, After(c, 1));
  }

  lemma KeyStored(env: Env, k: string, v: int, entries: seq<Entry>, c: Ctx)
    requires c.heap == [Entries(entries)] && "m" in c.scope && c.scope["m"] == Dict(0)
    requires c.steps + 4 <= env.maxSteps && NoMarks(k)
    ensures Exec(env, AssignStmt(IndexExpr(M, StringLit(k)), Lit(v)), c)
         == Got(Next, After(c, 4).(heap := [Entries(Put(entries, k, IntValue(v)))]))
  {
    LitMeans(v, c.scope);
    Integers(v, v);
    assert EntriesAt(c.heap, 0) == entries;
    assert Write(c.heap, 0, Entries(Put(entries, k, IntValue(v)))) == [Entries(Put(entries, k, IntValue(v)))];
    hide Eval, Exec, Meaning, Cost, NoMarks, Put;
    ExpressionsMeanTheirMathematics(env, Lit(v), After(c, 1));
    VariableGives(env, "m", After(c, 2));
    TextGives(env, k, After(c, 3));
    StoreGives(env, M, StringLit(k), Lit(v), c, IntValue(v), After(c, 2), Dict(0), After(c, 3), Str(k), After(c, 4));
  }

  lemma KeyRead(env: Env, j: string, entries: seq<Entry>, c: Ctx)
    requires c.heap == [Entries(entries)] && "m" in c.scope && c.scope["m"] == Dict(0)
    requires c.steps + 4 <= env.maxSteps && NoMarks(j)
    ensures Exec(env, LetStmt("r", IndexExpr(M, StringLit(j))), c)
         == Got(Next, With(After(c, 4), "r", Lookup(entries, j)))
  {
    assert EntriesAt(c.heap, 0) == entries;
    hide Eval, Exec, NoMarks, Lookup;
    VariableGives(env, "m", After(c, 2));
    TextGives(env, j, After(c, 3));
    IndexGives(env, M, StringLit(j), After(c, 1), Dict(0), After(c, 3), Str(j), After(c, 4));
    LetGives(env, "r", IndexExpr(M, StringLit(j)), c, Lookup(entries, j), After(c, 4));
  }

  lemma MapRuns(env: Env, keys: seq<string>, vals: seq<int>, k: string, v: int, j: string)
    requires |keys| == |vals| && 10 + |keys| <= env.maxSteps && NoMarks(k) && NoMarks(j)
    ensures EndsWith(Run(env, MapProgram(keys, vals, k, v, j)), "r",
                     if j == k then IntValue(v) else LastGiven(keys, vals, j))
  {
    var entries := PutAll([], keys, IntValues(vals));
    var after := Put(entries, k, IntValue(v));
    var c := With(Holding(After(START, 2 + |keys|), Entries(entries)), "m", Dict(0));
    var d := After(c, 4).(heap := [Entries(after)]);
    var make, store := LetStmt("m", MapLit(PairsOf(keys, vals))), AssignStmt(IndexExpr(M, StringLit(k)), Lit(v));
    var read := LetStmt("r", IndexExpr(M, StringLit(j)));
    assert MapProgram(keys, vals, k, v, j) == [make] + ([store] + [read]);
    assert c.heap == [Entries(entries)];
    LiteralLookup(keys, vals, j);
    PutLookup(entries, k, IntValue(v), j);
    hide Exec, Eval, Block, NoMarks, PutAll, Put, Lookup, LastGiven;
    MapGives(env, keys, vals, After(START, 1));
    var made := Holding(After(START, 2 + |keys|), Entries(entries));
    LetGives(env, "m", MapLit(PairsOf(keys, vals)), START, Dict(0), made);
    InOrder(env, make, [store] + [read], START);
    KeyStored(env, k, v, entries, c);
    InOrder(env, store, [read], c);
    KeyRead(env, j, after, d);
    OnlyOne(env, read, d);
  }

  /** A map gives what was last stored under a key, whether in its literal or later, and null for a key
      that has nothing. */
  lemma MapsRemember(env: Env, keys: seq<string>, vals: seq<int>, k: string, v: int, j: string)
    requires |keys| == |vals| && NoMarks(k) && NoMarks(j)
    requires Run(env, MapProgram(keys, vals, k, v, j)).ctx.steps <= env.maxSteps
    ensures EndsWith(Run(env, MapProgram(keys, vals, k, v, j)), "r",
                     if j == k then IntValue(v) else LastGiven(keys, vals, j))
  {
    hide *;
    SameBeyond(env, MapProgram(keys, vals, k, v, j), 10 + |keys|);
    LargerLimit(env, 10 + |keys|);
    MapRuns(Limited(env, env.maxSteps + (10 + |keys|)), keys, vals, k, v, j);
  }

  // ----- loops over other values -----

  /** Each key once, where it is first given. */
  function FirstGiven(keys: seq<string>): seq<string> {
    if keys == [] then []
    else
      var before := FirstGiven(keys[..|keys| - 1]);
      if keys[|keys| - 1] in before then before else before + [keys[|keys| - 1]]
  }

  function KeyTexts(entries: seq<Entry>): seq<string> {
    seq(|entries|, i requires 0 <= i < |entries| => entries[i].key)
  }

  lemma {:induction false} PutKeys(entries: seq<Entry>, key: string, v: Value)
    ensures KeyTexts(Put(entries, key, v))
         == if key in KeyTexts(entries) then KeyTexts(entries) else KeyTexts(entries) + [key]
  {
    if entries != [] {
      OneKeyFirst(entries[0], entries[1..]);
      assert [entries[0]] + entries[1..] == entries;
      if entries[0].key == key {
        OneKeyFirst(Entry(key, v), entries[1..]);
      } else {
        PutKeys(entries[1..], key, v);
        OneKeyFirst(entries[0], Put(entries[1..], key, v));
        assert [entries[0].key] + (KeyTexts(entries[1..]) + [key]) == KeyTexts(entries) + [key];
      }
    }
    hide KeyTexts;
  }

  lemma OneKeyFirst(e: Entry, more: seq<Entry>)
    ensures KeyTexts([e] + more) == [e.key] + KeyTexts(more)
  {
  }

  lemma {:induction false} LiteralKeys(keys: seq<string>, vals: seq<int>)
    requires |keys| == |vals|
    ensures KeyTexts(PutAll([], keys, IntValues(vals))) == FirstGiven(keys)
    decreases |keys|
  {
    if keys != [] {
      var n := |keys| - 1;
      PutAllInParts([], keys, IntValues(vals));
      assert IntValues(vals)[..n] == IntValues(vals[..n]);
      LiteralKeys(keys[..n], vals[..n]);
      PutKeys(PutAll([], keys[..n], IntValues(vals[..n])), keys[n], IntValue(vals[n]));
    }
  }

  function Joined(texts: seq<string>): string {
    if texts == [] then "" else Joined(texts[..|texts| - 1]) + texts[|texts| - 1]
  }

  /** `s = $s + $k` */
  const JOINING := AssignStmt(VarRef("s"), BinOp(VarRef("s"), AddOp, VarRef("k")))

  /** `let s = ""` and `for k in {..} { s = $s + $k }`. */
  function KeysProgram(keys: seq<string>, vals: seq<int>): seq<Stmt>
    requires |keys| == |vals|
  {
    [LetStmt("s", StringLit("")), ForStmt("k", MapLit(PairsOf(keys, vals)), [JOINING])]
  }

  function Texts(ts: seq<string>): seq<Value> {
    seq(|ts|, i requires 0 <= i < |ts| => Str(ts[i]))
  }

  lemma JoinTurn(env: Env, s: string, k: string, c: Ctx)
    requires "s" in c.scope && c.scope["s"] == Str(s) && c.steps + 5 <= env.maxSteps
    ensures var d := With(After(c, 1), "k", Str(k));
      Block(env, [JOINING], d) == Got(Next, With(After(d, 4), "s", Str(s + k)))
  {
    var d := With(After(c, 1), "k", Str(k));
    hide Exec, Eval, Block;
    VariableGives(env, "s", After(d, 2));
    VariableGives(env, "k", After(d, 3));
    JoinGives(env, VarRef("s"), VarRef("k"), After(d, 1), s, After(d, 3), k, After(d, 4));
    AssignGives(env, "s", BinOp(VarRef("s"), AddOp, VarRef("k")), d, Str(s + k), After(d, 4));
    OnlyOne(env, JOINING, d);
  }

  lemma {:induction false} LoopJoins(env: Env, ts: seq<string>, i: nat, c: Ctx)
    requires i <= |ts| && "s" in c.scope && c.scope["s"] == Str(Joined(ts[..i]))
    requires c.steps + 5 * (|ts| - i) <= env.maxSteps
    ensures EndsWith(Loop(env, "k", Fixed(Texts(ts)), i, [JOINING], c), "s", Str(Joined(ts)))
    decreases |ts| - i
  {
    hide Block, Loop;
    if i < |ts| {
      assert ts[..i + 1][..i] == ts[..i];
      Turn(env, "k", Fixed(Texts(ts)), i, [JOINING], c);
      JoinTurn(env, Joined(ts[..i]), ts[i], c);
      LoopJoins(env, ts, i + 1, With(After(With(After(c, 1), "k", Str(ts[i])), 4), "s", Str(Joined(ts[..i + 1]))));
    } else {
      assert ts[..i] == ts;
      LastTurn(env, "k", Fixed(Texts(ts)), i, [JOINING], c);
    }
  }

  lemma {:induction false} FewerKeys(keys: seq<string>)
    ensures |FirstGiven(keys)| <= |keys|
  {
    if keys != [] { FewerKeys(keys[..|keys| - 1]); }
  }

  lemma KeysRun(env: Env, keys: seq<string>, vals: seq<int>)
    requires |keys| == |vals| && 4 + 6 * |keys| <= env.maxSteps
    ensures EndsWith(Run(env, KeysProgram(keys, vals)), "s", Str(Joined(FirstGiven(keys))))
  {
    hide *;
    KeysParts(env.py, keys, vals);
    var ts := FirstGiven(keys);
    var c := With(After(START, 2), "s", Str(""));
    var d := Holding(After(c, 2 + |keys|), Entries(PutAll([], keys, IntValues(vals))));
    var loop := ForStmt("k", MapLit(PairsOf(keys, vals)), [JOINING]);
    RunsAsBlock(env, KeysProgram(keys, vals));
    AtStart(1);
    AfterTwice(START, 1, 1);
    AfterTwice(c, 1, 1 + |keys|);
    TextGives(env, "", After(START, 1));
    LetGives(env, "s", StringLit(""), START, Str(""), After(START, 2));
    InOrder(env, LetStmt("s", StringLit("")), [loop], START);
    OnlyOne(env, loop, c);
    MapGives(env, keys, vals, After(c, 1));
    ForGives(env, "k", MapLit(PairsOf(keys, vals)), [JOINING], c, Dict(0), d);
    LoopJoins(env, ts, 0, d);
  }

  lemma KeysParts(py: Runtime, keys: seq<string>, vals: seq<int>)
    requires |keys| == |vals|
    ensures |IntValues(vals)| == |vals|
    ensures KeysProgram(keys, vals)
         == [LetStmt("s", StringLit(""))] + [ForStmt("k", MapLit(PairsOf(keys, vals)), [JOINING])]
    ensures var ts, c := FirstGiven(keys), With(After(START, 2), "s", Str(""));
      var d := Holding(After(c, 2 + |keys|), Entries(PutAll([], keys, IntValues(vals))));
      && NoMarks("") && ts[..0] == [] && Joined([]) == "" && |ts| <= |keys|
      && c.steps == 2 && |After(c, 1).heap| == 0 && After(c, 1).steps == 3
      && d.steps == 4 + |keys| && "s" in d.scope && d.scope["s"] == Str("")
      && ToWalk(py, Dict(0), d.heap) == Fixed(Texts(ts))
  {
    var entries, ts := PutAll([], keys, IntValues(vals)), FirstGiven(keys);
    LiteralKeys(keys, vals);
    FewerKeys(keys);
    assert |KeyTexts(entries)| == |entries| == |ts|;
    assert forall i :: 0 <= i < |ts| ==> KeyTexts(entries)[i] == ts[i];
    assert Keys(entries) == Texts(ts);
    hide PutAll, FirstGiven;
  }

  /** A loop over a map goes over its keys, each once, in the order in which they were first given. */
  lemma KeysAreWalked(env: Env, keys: seq<string>, vals: seq<int>)
    requires |keys| == |vals| && Run(env, KeysProgram(keys, vals)).ctx.steps <= env.maxSteps
    ensures EndsWith(Run(env, KeysProgram(keys, vals)), "s", Str(Joined(FirstGiven(keys))))
  {
    hide *;
    SameBeyond(env, KeysProgram(keys, vals), 4 + 6 * |keys|);
    LargerLimit(env, 4 + 6 * |keys|);
    KeysRun(Limited(env, env.maxSteps + (4 + 6 * |keys|)), keys, vals);
  }

  /** `let s = ""` and `for k in ".." { s = $s + $k }`. */
  function LinesProgram(t: string): seq<Stmt> {
    [LetStmt("s", StringLit("")), ForStmt("k", StringLit(t), [JOINING])]
  }

  lemma LinesParts(py: Runtime, t: string)
    ensures LinesProgram(t) == [LetStmt("s", StringLit(""))] + [ForStmt("k", StringLit(t), [JOINING])]
    ensures var ts, c := py.lines(t), With(After(START, 2), "s", Str(""));
      && NoMarks("") && ts[..0] == [] && Joined([]) == "" && c.steps == 2
      && After(c, 1).steps == 3 && After(c, 2).steps == 4
      && "s" in After(c, 2).scope && After(c, 2).scope["s"] == Str("")
      && ToWalk(py, Str(t), After(c, 2).heap) == Fixed(Texts(ts))
  {
    var ts := py.lines(t);
    assert seq(|ts|, i requires 0 <= i < |ts| => Str(ts[i])) == Texts(ts);
  }

  lemma LinesRun(env: Env, t: string)
    requires NoMarks(t) && 4 + 5 * |env.py.lines(t)| <= env.maxSteps
    ensures EndsWith(Run(env, LinesProgram(t)), "s", Str(Joined(env.py.lines(t))))
  {
    hide *;
    LinesParts(env.py, t);
    var ts := env.py.lines(t);
    var c := With(After(START, 2), "s", Str(""));
    var d, loop := After(c, 2), ForStmt("k", StringLit(t), [JOINING]);
    RunsAsBlock(env, LinesProgram(t));
    AtStart(1);
    AfterTwice(START, 1, 1);
    AfterTwice(c, 1, 1);
    TextGives(env, "", After(START, 1));
    LetGives(env, "s", StringLit(""), START, Str(""), After(START, 2));
    InOrder(env, LetStmt("s", StringLit("")), [loop], START);
    OnlyOne(env, loop, c);
    TextGives(env, t, After(c, 1));
    ForGives(env, "k", StringLit(t), [JOINING], c, Str(t), d);
    LoopJoins(env, ts, 0, d);
  }

  /** A loop over a text goes over its lines in order. */
  lemma LinesAreWalked(env: Env, t: string)
    requires NoMarks(t) && Run(env, LinesProgram(t)).ctx.steps <= env.maxSteps
    ensures EndsWith(Run(env, LinesProgram(t)), "s", Str(Joined(env.py.lines(t))))
  {
    hide *;
    var k := 4 + 5 * |env.py.lines(t)|;
    SameBeyond(env, LinesProgram(t), k);
    LargerLimit(env, k);
    LinesRun(Limited(env, env.maxSteps + k), t);
  }

  /** `let n = 0`, and `for x in .. { n = $n + 1 }` over null or a number. */
  function OnceProgram(e: Expr): seq<Stmt> {
    [LetStmt("n", Lit(0)), ForStmt("x", e, [COUNTING])]
  }

  lemma OnceRuns(env: Env, e: Expr, k: int)
    requires (e == NullLit || e == Lit(k)) && 10 <= env.maxSteps
    ensures EndsWith(Run(env, OnceProgram(e)), "n", IntValue(if e == NullLit then 0 else 1))
  {
    hide *;
    var c := With(After(START, 2), "n", IntValue(0));
    var loop := ForStmt("x", e, [COUNTING]);
    var d := After(c, 2);
    OnceParts(e);
    RunsAsBlock(env, OnceProgram(e));
    AtStart(2);
    LitMeans(0, START.scope);
    Integers(0, 0);
    WithKeeps(After(START, 2), "n", IntValue(0));
    AfterKeeps(c, 2);
    AfterTwice(c, 1, 1);
    PlainLet(env, "n", Lit(0), START);
    InOrder(env, LetStmt("n", Lit(0)), [loop], START);
    OnlyOne(env, loop, c);
    if e == NullLit {
      NullGives(env, After(c, 1));
      ForGives(env, "x", e, [COUNTING], c, Null, d);
      ScalarWalks(env.py, 0, d.heap);
      LastTurn(env, "x", Fixed([]), 0, [COUNTING], d);
      SetEnds(Run(env, OnceProgram(e)), After(START, 2), 2, "n", IntValue(0));
    } else {
      LitMeans(k, c.scope);
      Integers(k, k);
      ExpressionsMeanTheirMathematics(env, e, After(c, 1));
      ForGives(env, "x", e, [COUNTING], c, IntValue(k), d);
      ScalarWalks(env.py, k, d.heap);
      OneTurn(env, k, d);
      WithEnds(Run(env, OnceProgram(e)), After(With(After(d, 1), "x", IntValue(k)), 4), "n", IntValue(1));
    }
  }

  lemma OnceParts(e: Expr)
    ensures OnceProgram(e) == [LetStmt("n", Lit(0))] + [ForStmt("x", e, [COUNTING])]
  {
  }

  lemma NullGives(env: Env, c: Ctx)
    requires c.steps < env.maxSteps
    ensures Eval(env, NullLit, c) == Got(Null, After(c, 1))
  {
    hide Debt, Credit;
    assert Tick(env, c) == Got((), After(c, 1));
  }

  lemma ScalarWalks(py: Runtime, k: int, heap: Heap)
    ensures ToWalk(py, Null, heap) == Fixed([]) && ToWalk(py, IntValue(k), heap) == Fixed([IntValue(k)])
    ensures forall items, h :: Walked(Fixed(items), h) == items
  {
  }

  lemma SetEnds(r: Out<Flow>, c: Ctx, k: nat, x: string, v: Value)
    requires r == Got(Next, After(With(c, x, v), k))
    ensures EndsWith(r, x, v)
  {
  }

  lemma OneTurn(env: Env, k: int, c: Ctx)
    requires "n" in c.scope && c.scope["n"] == IntValue(0) && c.steps + 5 <= env.maxSteps
    ensures var f := With(After(c, 1), "x", IntValue(k));
      Loop(env, "x", Fixed([IntValue(k)]), 0, [COUNTING], c) == Got(Next, With(After(f, 4), "n", IntValue(1)))
  {
    hide *;
    var f := With(After(c, 1), "x", IntValue(k));
    ScalarWalks(env.py, k, c.heap);
    AfterKeeps(c, 1);
    WithKeeps(After(c, 1), "x", IntValue(k));
    Turn(env, "x", Fixed([IntValue(k)]), 0, [COUNTING], c);
    Counts(env, 0, f);
    LastTurn(env, "x", Fixed([IntValue(k)]), 1, [COUNTING], With(After(f, 4), "n", IntValue(1)));
  }

  /** A loop over null has no turn, and one over a number has one. */
  lemma ScalarsAreWalkedOnce(env: Env, e: Expr, k: int)
    requires (e == NullLit || e == Lit(k)) && Run(env, OnceProgram(e)).ctx.steps <= env.maxSteps
    ensures EndsWith(Run(env, OnceProgram(e)), "n", IntValue(if e == NullLit then 0 else 1))
  {
    hide *;
    SameBeyond(env, OnceProgram(e), 10);
    LargerLimit(env, 10);
    OnceRuns(Limited(env, env.maxSteps + 10), e, k);
  }
}
