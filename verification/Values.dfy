/** The values scripts compute with, and the conversions and operators on them.

    Lists and maps are shared and changed in place, so a value refers to one by its place in the heap. */
module Values {
  import opened Wrappers
  import opened Syntax

  datatype Fn = Fn(name: string, params: seq<string>, body: seq<Stmt>)

  datatype Value =
    | Null
    | Bool(b: bool)
    | Number(num: Num)
    | Str(s: string)
    | List(ref: nat)
    | Dict(ref: nat)
    | Func(fn: Fn)

  datatype Entry = Entry(key: string, val: Value)

  datatype Obj = Items(items: seq<Value>) | Entries(entries: seq<Entry>)

  type Heap = seq<Obj>

  type Scope = map<string, Value>

  /** What a script may raise: the step limit, the two errors a script can catch, and any other
      exception, which it cannot. */
  datatype Fault =
    | StepLimit(limit: nat)
    | ScriptFault(text: string)
    | BuiltinFault(text: string)
    | OtherFault(text: string)

  type HostFault = f: Fault | !f.StepLimit? witness OtherFault("")

  datatype Answer<+T> = Gives(value: T) | Fails(fault: HostFault) {
    predicate IsFailure() {
      Fails?
    }

    function PropagateFailure<U>(): Answer<U>
      requires IsFailure()
    {
      Fails(fault)
    }

    function Extract(): T
      requires !IsFailure()
    {
      value
    }
  }

  /** The parts of the Python runtime the model takes as given: the texts of floats, lists, maps and
      functions, the comparison of lists and maps, the lines of a text, and reading numbers from texts. */
  datatype Runtime = Runtime(
    text: (Value, Heap) -> Answer<string>,
    show: (Value, Heap) -> Answer<string>,
    same: (Value, Value, Heap) -> Answer<bool>,
    lines: string -> seq<string>,
    number: string -> Num,
    integer: string -> Option<int>)

  // ----- the heap -----

  function ItemsAt(heap: Heap, ref: nat): seq<Value> {
    if ref < |heap| && heap[ref].Items? then heap[ref].items else []
  }

  function EntriesAt(heap: Heap, ref: nat): seq<Entry> {
    if ref < |heap| && heap[ref].Entries? then heap[ref].entries else []
  }

  function Write(heap: Heap, ref: nat, obj: Obj): (h: Heap)
    ensures |h| == |heap|
  {
    if ref < |heap| then heap[ref := obj] else heap
  }

  function Lookup(entries: seq<Entry>, key: string): Value {
    if entries == [] then Null else if entries[0].key == key then entries[0].val else Lookup(entries[1..], key)
  }

  /** A key that is present keeps its place; a new one goes last. */
  function Put(entries: seq<Entry>, key: string, val: Value): seq<Entry> {
    if entries == [] then [Entry(key, val)]
    else if entries[0].key == key then [Entry(key, val)] + entries[1..]
    else [entries[0]] + Put(entries[1..], key, val)
  }

  function PutAll(entries: seq<Entry>, keys: seq<string>, vals: seq<Value>): seq<Entry>
    requires |keys| == |vals|
    decreases |keys|
  {
    if keys == [] then entries else PutAll(Put(entries, keys[0], vals[0]), keys[1..], vals[1..])
  }

  function Keys(entries: seq<Entry>): seq<Value> {
    seq(|entries|, i requires 0 <= i < |entries| => Str(entries[i].key))
  }

  // ----- conversions -----

  function Digits(n: nat): string {
    (if n < 10 then "" else Digits(n / 10)) + [(n % 10 + '0' as int) as char]
  }

  function IntText(n: int): string {
    if n < 0 then "-" + Digits(-n) else Digits(n)
  }

  /** The text of a value where a script asks for text. */
  function ToText(py: Runtime, v: Value, heap: Heap): Answer<string> {
    match v
    case Null => Gives("")
    case Bool(b) => Gives(if b then "true" else "false")
    case Number(Int(n)) => Gives(IntText(n))
    case Str(s) => Gives(s)
    case _ => py.text(v, heap)
  }

  /** Python's own text of a value, which keys of maps and arguments of builtins are turned into. */
  function Show(py: Runtime, v: Value, heap: Heap): Answer<string> {
    match v
    case Null => Gives("None")
    case Bool(b) => Gives(if b then "True" else "False")
    case Number(Int(n)) => Gives(IntText(n))
    case Str(s) => Gives(s)
    case _ => py.show(v, heap)
  }

  /** The number a value is to Python, in which the truth values are one and zero. */
  function NumberIn(v: Value): Option<Num> {
    match v
    case Number(n) => Some(n)
    case Bool(b) => Some(Int(if b then 1 else 0))
    case _ => None
  }

  /** Equality: of numbers by value, of other scalars and of functions by being the same, and of lists
      and of maps as Python compares what they hold. */
  function Same(py: Runtime, a: Value, b: Value, heap: Heap): Answer<bool> {
    if NumberIn(a).Some? && NumberIn(b).Some? then Gives(AsReal(NumberIn(a).value) == AsReal(NumberIn(b).value))
    else if (a.List? && b.List?) || (a.Dict? && b.Dict?) then py.same(a, b, heap)
    else Gives(a == b)
  }

  // ----- interpolation -----

  /** The length of the name a text begins with. */
  function WordLength(s: string): (n: nat)
    ensures n <= |s|
  {
    if s != [] && IsWordPart(s[0]) then 1 + WordLength(s[1..]) else 0
  }

  predicate IsWordPart(c: char) {
    c == '_' || 'a' <= c <= 'z' || 'A' <= c <= 'Z' || '0' <= c <= '9'
  }

  /** The name of the `${name}` mark a text begins with. */
  function MarkAt(s: string): Option<string> {
    if |s| > 2 && s[0] == '$' && s[1] == '{' then
      var n := WordLength(s[2..]);
      if n > 0 && n + 2 < |s| && s[n + 2] == '}' then Some(s[2..n + 2]) else None
    else None
  }

  /** A text with its marks replaced by the texts of the variables they name; a variable that is null
      or not there leaves nothing. */
  function Interpolate(py: Runtime, s: string, scope: Scope, heap: Heap): Answer<string>
    decreases |s|
  {
    if s == [] then Gives([])
    else
      match MarkAt(s)
      case Some(name) =>
        var text :- if name in scope then ToText(py, scope[name], heap) else Gives("");
        var more :- Interpolate(py, s[|name| + 3..], scope, heap);
        Gives(text + more)
      case None =>
        var more :- Interpolate(py, s[1..], scope, heap);
        Gives([s[0]] + more)
  }

  /** The text a `catch` puts in its variable, up to the cause that import and builtin errors quote. */
  function Message(f: Fault): string {
    match f
    case StepLimit(n) => "Exceeded " + Digits(n) + " steps"
    case ScriptFault(text) => text
    case BuiltinFault(text) => text
    case OtherFault(text) => text
  }

  function TypeName(v: Value): string {
    match v
    case Null => "NoneType"
    case Bool(_) => "bool"
    case Number(Int(_)) => "int"
    case Number(Float(_)) => "float"
    case Str(_) => "str"
    case List(_) => "list"
    case Dict(_) => "dict"
    case Func(_) => "FnDef"
  }

  predicate Truthy(v: Value, heap: Heap) {
    match v
    case Null => false
    case Bool(b) => b
    case Number(Int(n)) => n != 0
    case Number(Float(r)) => r != 0.0
    case Str(s) => s != "" && s != "false"
    case List(ref) => ItemsAt(heap, ref) != []
    case Dict(ref) => EntriesAt(heap, ref) != []
    case Func(_) => true
  }

  function ToNumber(py: Runtime, v: Value): Num {
    match v
    case Number(n) => n
    case Bool(b) => Int(if b then 1 else 0)
    case Str(s) => py.number(s)
    case _ => Int(0)
  }

  function AsReal(n: Num): real {
    match n case Int(i) => i as real case Float(r) => r
  }

  function Truncate(r: real): int {
    if r >= 0.0 then r.Floor else -((-r).Floor)
  }

  /** Python's `int` of a value. */
  function ToInt(py: Runtime, v: Value): Answer<int> {
    match v
    case Number(Int(n)) => Gives(n)
    case Number(Float(r)) => Gives(Truncate(r))
    case Bool(b) => Gives(if b then 1 else 0)
    case Str(s) =>
      (match py.integer(s) case Some(n) => Gives(n) case None => Fails(OtherFault("invalid literal for int()")))
    case _ => Fails(OtherFault("int() argument is not a number"))
  }

  /** A Python index counts from the end when it is negative. */
  function Position(i: int, length: nat): Answer<nat> {
    if 0 <= i < length then Gives(i)
    else if i < 0 <= length + i then Gives(length + i)
    else Fails(OtherFault("index out of range"))
  }

  /** What a `for` walks: a list as it is at each turn, or items fixed at the start. */
  datatype Walk = Live(ref: nat) | Fixed(items: seq<Value>)

  function ToWalk(py: Runtime, v: Value, heap: Heap): Walk {
    match v
    case List(ref) => Live(ref)
    case Dict(ref) => Fixed(Keys(EntriesAt(heap, ref)))
    case Str(s) => var lines := py.lines(s); Fixed(seq(|lines|, i requires 0 <= i < |lines| => Str(lines[i])))
    case Null => Fixed([])
    case _ => Fixed([v])
  }

  function Walked(walk: Walk, heap: Heap): seq<Value> {
    match walk case Live(ref) => ItemsAt(heap, ref) case Fixed(items) => items
  }

  // ----- operators -----

  function Arith(op: BinaryOp, a: Num, b: Num): Num
    requires op in {AddOp, SubOp, MulOp}
  {
    if a.Int? && b.Int? then
      Int(match op case AddOp => a.n + b.n case SubOp => a.n - b.n case MulOp => a.n * b.n)
    else
      var x, y := AsReal(a), AsReal(b);
      Float(match op case AddOp => x + y case SubOp => x - y case MulOp => x * y)
  }

  /** The operators that always evaluate both sides. */
  function Apply(py: Runtime, op: BinaryOp, left: Value, right: Value, heap: Heap): Answer<Value>
    requires op != AndOp && op != OrOp
  {
    var a, b := ToNumber(py, left), ToNumber(py, right);
    match op
    case AddOp =>
      if left.Str? || right.Str? then
        var l :- ToText(py, left, heap);
        var r :- ToText(py, right, heap);
        Gives(Str(l + r))
      else Gives(Number(Arith(op, a, b)))
    case SubOp => Gives(Number(Arith(op, a, b)))
    case MulOp => Gives(Number(Arith(op, a, b)))
    case DivOp =>
      if AsReal(b) == 0.0 then Fails(ScriptFault("Division by zero")) else Gives(Number(Float(AsReal(a) / AsReal(b))))
    case EqOp => var eq :- Same(py, left, right, heap); Gives(Bool(eq))
    case NeOp => var eq :- Same(py, left, right, heap); Gives(Bool(!eq))
    case LtOp => Gives(Bool(AsReal(a) < AsReal(b)))
    case GtOp => Gives(Bool(AsReal(a) > AsReal(b)))
    case LeOp => Gives(Bool(AsReal(a) <= AsReal(b)))
    case GeOp => Gives(Bool(AsReal(a) >= AsReal(b)))
  }

  function ApplyPrefix(py: Runtime, op: PrefixOp, v: Value, heap: Heap): Value {
    match op
    case NotOp => Bool(!Truthy(v, heap))
    case NegOp => Number(Negate(ToNumber(py, v)))
  }

  function Index(py: Runtime, obj: Value, idx: Value, heap: Heap): Answer<Value> {
    match obj
    case List(ref) =>
      var i :- ToInt(py, idx);
      var at :- Position(i, |ItemsAt(heap, ref)|);
      Gives(ItemsAt(heap, ref)[at])
    case Dict(ref) =>
      var key :- Show(py, idx, heap);
      Gives(Lookup(EntriesAt(heap, ref), key))
    case Str(s) =>
      var i :- ToInt(py, idx);
      var at :- Position(i, |s|);
      Gives(Str([s[at]]))
    case _ => Fails(ScriptFault("Cannot index into " + TypeName(obj)))
  }

  function IndexAssign(py: Runtime, obj: Value, idx: Value, val: Value, heap: Heap): Answer<Heap> {
    match obj
    case List(ref) =>
      if idx.Number? || idx.Bool? then
        var i :- ToInt(py, idx);
        var at :- Position(i, |ItemsAt(heap, ref)|);
        Gives(Write(heap, ref, Items(ItemsAt(heap, ref)[at := val])))
      else Fails(ScriptFault("Cannot index-assign into list"))
    case Dict(ref) =>
      var key :- Show(py, idx, heap);
      Gives(Write(heap, ref, Entries(Put(EntriesAt(heap, ref), key, val))))
    case _ => Fails(ScriptFault("Cannot index-assign into " + TypeName(obj)))
  }

  // ----- the two functions that change their argument -----

  function Append(args: seq<Value>, heap: Heap): Answer<Heap> {
    if |args| < 2 then Fails(ScriptFault("append requires (list, value)"))
    else if !args[0].List? then Fails(ScriptFault("append: first argument must be a list"))
    else Gives(Write(heap, args[0].ref, Items(ItemsAt(heap, args[0].ref) + [args[1]])))
  }

  function SetKey(py: Runtime, args: seq<Value>, heap: Heap): Answer<Heap> {
    if |args| < 3 then Fails(ScriptFault("set requires (map, key, value)"))
    else if !args[0].Dict? then Fails(ScriptFault("set: first argument must be a map"))
    else
      var key :- Show(py, args[1], heap);
      Gives(Write(heap, args[0].ref, Entries(Put(EntriesAt(heap, args[0].ref), key, args[2]))))
  }
}
