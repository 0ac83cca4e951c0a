/** The fragment of Python that assertion projection reads, and what Python itself does with it:
    calls, boolean operations and comparisons as in sections 6.3.4, 6.10 and 6.11 of the Python
    Language Reference 3.12, name binding as in section 4.2, defaults evaluated when the `def` is
    executed (section 8.7). There is no bound on steps, call depth, integers or lists: `fuel` only
    counts nested calls, so "some fuel gives a value" is termination. Constructs outside the
    fragment, and Python's exceptions, have no value. */
module PythonSubset {
  import opened Options

  // ---- Syntax ----

  /** Identifiers; the five builtins the program knows have constructors of their own and `Named` is
      every other identifier. */
  datatype Ident = Range | List | Len | Min | Max | Named(s: string)

  datatype Const = CNone | CBool(b: bool) | CInt(i: int) | CStr(s: string)

  datatype Junction = And | Or

  datatype Comparison = Is | IsNot | Eq | NotEq | OtherComparison

  datatype Arithmetic = Add | Sub | Mul

  /** `items` of a dict display alternate keys and values; `keys` name the keyword arguments, None
      for `**`. `Other` is any other expression, with the names it binds; `literal` when no call, name,
      attribute or subscript is inside it. */
  datatype Expr =
    | Constant(c: Const)
    | Name(id: Ident)
    | Neg(operand: Expr)
    | Junct(j: Junction, values: seq<Expr>)
    | Arith(op: Arithmetic, left: Expr, right: Expr)
    | Compare(cmp: Comparison, first: Expr, second: Expr)
    | DictDisplay(items: seq<Expr>)
    | ListDisplay(elements: seq<Expr>)
    | Call(name: Ident, args: seq<Expr>, keys: seq<Option<Ident>>, keyValues: seq<Expr>)
    | Method(target: Expr, attr: string, margs: seq<Expr>, keyworded: bool)
    | Other(binds: set<Ident>, literal: bool)

  /** `Unknown` is any statement outside the subset; `stores` are its names in store context,
      `binds` all names it makes local (imports and nested definitions too). */
  datatype Stmt =
    | Return(line: nat, value: Option<Expr>)
    | Assign(line: nat, id: Ident, rhs: Expr)
    | If(line: nat, test: Expr, body: seq<Stmt>, orelse: seq<Stmt>)
    | DocString(line: nat)
    | Unknown(line: nat, stores: set<Ident>, unknownBinds: set<Ident>)

  /** A body with `yield` makes a generator function (section 6.2.9); one that declares a name `global`
      or `nonlocal` binds names of other scopes (sections 7.12 and 7.13). */
  datatype Kind = Ordinary | Generator | RebindsOuter

  /** `plain`: no decorators and only ordinary parameters. `typeParams`: names of its type parameters
      (section 8.10). `stored`: names that its annotations and decorators store. `defines`: the compiler
      accepts the `def`, and its annotations and decorators can be evaluated, without changing a name
      of the module. */
  datatype Fn = Fn(name: Ident, params: seq<Ident>, defaults: seq<Expr>, plain: bool, kind: Kind,
                   typeParams: set<Ident>, stored: set<Ident>, defines: bool, body: seq<Stmt>)

  predicate Distinct(names: seq<Ident>) { forall i, j :: 0 <= i < j < |names| ==> names[i] != names[j] }

  /** What the parser guarantees. */
  ghost predicate WellFormed(fns: seq<Fn>) {
    && (forall i, j :: 0 <= i < j < |fns| ==> fns[i].name != fns[j].name)
    && (forall f <- fns :: |f.defaults| <= |f.params| && Distinct(f.params))
  }

  function Find(fns: seq<Fn>, name: Ident): (r: Option<nat>)
    ensures r.Some? ==> r.value < |fns| && fns[r.value].name == name
  {
    if fns == [] then None
    else if fns[|fns| - 1].name == name then Some(|fns| - 1)
    else Find(fns[..|fns| - 1], name)
  }

  predicate IsBuiltin(x: Ident) { !x.Named? }

  predicate NoBuiltin(names: set<Ident>) {
    Range !in names && List !in names && Len !in names && Min !in names && Max !in names
  }

  /** No function of the file has the name of a builtin. */
  predicate NoneShadows(fns: seq<Fn>) {
    Find(fns, Range).None? && Find(fns, List).None? && Find(fns, Len).None? && Find(fns, Min).None?
    && Find(fns, Max).None?
  }

  function ExprBinds(e: Expr): set<Ident> {
    match e
    case Constant(_) => {}
    case Name(_) => {}
    case Neg(a) => ExprBinds(a)
    case Junct(_, es) => AllBind(es)
    case Arith(_, a, b) => ExprBinds(a) + ExprBinds(b)
    case Compare(_, a, b) => ExprBinds(a) + ExprBinds(b)
    case DictDisplay(es) => AllBind(es)
    case ListDisplay(es) => AllBind(es)
    case Call(_, es, _, ks) => AllBind(es) + AllBind(ks)
    case Method(a, _, es, _) => ExprBinds(a) + AllBind(es)
    case Other(names, _) => names
  }

  function AllBind(es: seq<Expr>): set<Ident> {
    if es == [] then {} else ExprBinds(es[0]) + AllBind(es[1..])
  }

  /** Names in store context, which is what the program looks for ... */
  function Stores(body: seq<Stmt>): set<Ident> {
    if body == [] then {}
    else (match body[0]
          case Return(_, None) => {}
          case Return(_, Some(e)) => ExprBinds(e)
          case Assign(_, id, e) => {id} + ExprBinds(e)
          case If(_, e, a, b) => ExprBinds(e) + Stores(a) + Stores(b)
          case DocString(_) => {}
          case Unknown(_, stores, _) => stores) + Stores(body[1..])
  }

  /** ... and names the body makes local, which is what Python goes by. */
  function Binds(body: seq<Stmt>): set<Ident> {
    if body == [] then {}
    else (match body[0]
          case Return(_, None) => {}
          case Return(_, Some(e)) => ExprBinds(e)
          case Assign(_, id, e) => {id} + ExprBinds(e)
          case If(_, e, a, b) => ExprBinds(e) + Binds(a) + Binds(b)
          case DocString(_) => {}
          case Unknown(_, stores, binds) => stores + binds) + Binds(body[1..])
  }

  /** Names that in the body do not mean the module's, other than parameters. */
  function Own(f: Fn): set<Ident> { f.typeParams + Binds(f.body) }

  function Locals(f: Fn): set<Ident> { (set p | p in f.params) + Own(f) }

  // ---- Values ----

  /** `VRange` is a range object: not a list, and never equal to one. `VGenerator` is what a call of a
      generator function returns, equal to nothing but itself; which generator it is, is left open. */
  datatype PyValue = VNone | VBool(b: bool) | VInt(i: int) | VStr(s: string)
                 | VList(vs: seq<PyValue>) | VDict(m: map<string, PyValue>) | VRange(ints: seq<int>) | VGenerator

  type Env = map<Ident, PyValue>

  function OfConst(c: Const): PyValue {
    match c
    case CNone => VNone
    case CBool(b) => VBool(b)
    case CInt(i) => VInt(i)
    case CStr(s) => VStr(s)
  }

  predicate Truthy(v: PyValue) {
    match v
    case VNone => false
    case VBool(b) => b
    case VInt(i) => i != 0
    case VStr(s) => s != ""
    case VList(vs) => vs != []
    case VDict(m) => m != map[]
    case VRange(ints) => ints != []
    case VGenerator => true
  }

  predicate HasGenerator(v: PyValue) {
    match v
    case VList(vs) => exists i :: 0 <= i < |vs| && HasGenerator(vs[i])
    case VDict(m) => exists k :: k in m && HasGenerator(m[k])
    case VGenerator => true
    case _ => false
  }

  predicate Numeric(v: PyValue) { v.VBool? || v.VInt? }

  function Number(v: PyValue): int
    requires Numeric(v)
  {
    if v.VBool? then (if v.b then 1 else 0) else v.i
  }

  /** `==`: booleans are numbers, lists and dicts compare by their elements. */
  predicate Equal(a: PyValue, b: PyValue)
    decreases a
  {
    if Numeric(a) && Numeric(b) then Number(a) == Number(b)
    else match (a, b)
      case (VNone, VNone) => true
      case (VStr(x), VStr(y)) => x == y
      case (VRange(x), VRange(y)) => x == y
      case (VList(x), VList(y)) => |x| == |y| && forall i :: 0 <= i < |x| ==> Equal(x[i], y[i])
      case (VDict(x), VDict(y)) => x.Keys == y.Keys && forall k :: k in x ==> Equal(x[k], y[k])
      case _ => false
  }

  function Arithmetically(op: Arithmetic, a: int, b: int): int {
    match op
    case Add => a + b
    case Sub => a - b
    case Mul => a * b
  }

  /** The elements of range(start, stop, step). */
  function Counted(start: int, stop: int, step: int): seq<int>
    requires step != 0
    decreases if 0 < step then stop - start else start - stop
  {
    if (0 < step && start < stop) || (step < 0 && stop < start) then [start] + Counted(start + step, stop, step) else []
  }

  /** `k1: v1, k2: v2, ...` with string keys, a later key replacing an earlier one. */
  function Dict(items: seq<PyValue>): Option<map<string, PyValue>> {
    if |items| == 0 then Some(map[])
    else if |items| == 1 then None
    else match (Dict(items[..|items| - 2]), items[|items| - 2])
      case (Some(m), VStr(k)) => Some(m[k := items[|items| - 1]])
      case _ => None
  }

  /** The keyword arguments by name; None when one of them is `**`. */
  function Keywords(keys: seq<Option<Ident>>, values: seq<PyValue>): Option<map<Ident, PyValue>> {
    if keys == [] || values == [] then Some(map[])
    else match (Keywords(keys[..|keys| - 1], values[..|values| - 1]), keys[|keys| - 1])
      case (Some(m), Some(k)) => Some(m[k := values[|values| - 1]])
      case _ => None
  }

  predicate AllInts(vs: seq<PyValue>) { forall v <- vs :: v.VInt? }

  function Ints(vs: seq<PyValue>): seq<int>
    requires AllInts(vs)
  {
    seq(|vs|, i requires 0 <= i < |vs| => vs[i].i)
  }

  function AsValues(ints: seq<int>): seq<PyValue> {
    seq(|ints|, i requires 0 <= i < |ints| => VInt(ints[i]))
  }

  function Smallest(a: seq<int>): int
    requires a != []
  {
    if |a| == 1 then a[0] else var m := Smallest(a[1..]); if m < a[0] then m else a[0]
  }

  function Largest(a: seq<int>): int
    requires a != []
  {
    if |a| == 1 then a[0] else var m := Largest(a[1..]); if a[0] < m then m else a[0]
  }

  /** start, stop and step of a call of range. */
  function Bounds(a: seq<int>): (int, int, int)
    requires 1 <= |a| <= 3
  {
    if |a| == 1 then (0, a[0], 1) else if |a| == 2 then (a[0], a[1], 1) else (a[0], a[1], a[2])
  }

  // ---- What Python does ----

  /** A loaded module: its functions, and the values their defaults got when they were defined. */
  datatype Loaded = Loaded(fns: seq<Fn>, defaults: seq<seq<PyValue>>)

  type Module = m: Loaded | Loadable(m) witness Loaded([], [])

  datatype Event = Ran(line: nat) | Branched(fn: Ident, line: nat, taken: bool)

  datatype Done<T> = Done(value: T, trace: seq<Event>)

  /** How a block ended: with a returned value, or by falling off its end; and its local variables. */
  datatype Exit = Exit(returned: Option<PyValue>, env: Env)

  /** The five builtins on the values that matter here. */
  function Builtin(name: Ident, args: seq<PyValue>): Option<PyValue> {
    if name.Range? && 1 <= |args| <= 3 && AllInts(args) then
      var (start, stop, step) := Bounds(Ints(args));
      if step == 0 then None else Some(VRange(Counted(start, stop, step)))
    else if name.List? && |args| == 1 && args[0].VList? then Some(args[0])
    else if name.List? && |args| == 1 && args[0].VRange? then Some(VList(AsValues(args[0].ints)))
    else if name.Len? && |args| == 1 then
      (match args[0]
       case VStr(s) => Some(VInt(|s|))
       case VList(vs) => Some(VInt(|vs|))
       case VDict(m) => Some(VInt(|m|))
       case VRange(ints) => Some(VInt(|ints|))
       case _ => None)
    else if (name.Min? || name.Max?) && 1 < |args| && AllInts(args) then
      Some(VInt(if name.Min? then Smallest(Ints(args)) else Largest(Ints(args))))
    else None
  }

  /** Binding of arguments to parameters: parameter `i` gets the positional argument, the keyword
      argument or the default, and a call that leaves one without or gives one twice has no value. */
  predicate Binds1(f: Fn, i: nat, args: seq<PyValue>, kwargs: map<Ident, PyValue>)
    requires i < |f.params| && |f.defaults| <= |f.params|
  {
    if i < |args| then f.params[i] !in kwargs
    else f.params[i] in kwargs || |f.params| - |f.defaults| <= i
  }

  function Bound(f: Fn, defaults: seq<PyValue>, args: seq<PyValue>, kwargs: map<Ident, PyValue>): Option<Env>
    requires |defaults| == |f.defaults| <= |f.params| && Distinct(f.params)
  {
    if |args| <= |f.params| && kwargs.Keys <= (set p | p in f.params)
       && forall i :: 0 <= i < |f.params| ==> Binds1(f, i, args, kwargs)
    then Some(Bindings(f, defaults, args, kwargs))
    else None
  }

  function Bindings(f: Fn, defaults: seq<PyValue>, args: seq<PyValue>, kwargs: map<Ident, PyValue>): Env
    requires |defaults| == |f.defaults| <= |f.params|
    requires forall i :: 0 <= i < |f.params| ==> Binds1(f, i, args, kwargs)
  {
    map p | p in f.params :: Argument(f, defaults, args, kwargs, p)
  }

  function Argument(f: Fn, defaults: seq<PyValue>, args: seq<PyValue>, kwargs: map<Ident, PyValue>, p: Ident): PyValue
    requires |defaults| == |f.defaults| <= |f.params| && p in f.params
    requires forall i :: 0 <= i < |f.params| ==> Binds1(f, i, args, kwargs)
  {
    var i := Position(f.params, p);
    assert Binds1(f, i, args, kwargs);
    if i < |args| then args[i] else if p in kwargs then kwargs[p]
    else defaults[i - (|f.params| - |f.defaults|)]
  }

  function Position(names: seq<Ident>, p: Ident): (i: nat)
    requires p in names
    ensures i < |names| && names[i] == p
  {
    if names[0] == p then 0 else 1 + Position(names[1..], p)
  }

  /** `locals`: the names local to the enclosing function; at module level there are none. */
  function Eval(fuel: nat, m: Module, locals: set<Ident>, env: Env, e: Expr): Option<Done<PyValue>>
    decreases fuel, 0, e, 1
  {
    match e
    case Constant(c) => Some(Done(OfConst(c), []))
    case Name(id) => if id in env then Some(Done(env[id], [])) else None
    case Neg(a) =>
      (match Eval(fuel, m, locals, env, a)
       case Some(Done(v, t)) => if Numeric(v) then Some(Done(VInt(-Number(v)), t)) else None
       case None => None)
    case Junct(j, es) => if es == [] then None else EvalJunct(fuel, m, locals, env, j, es)
    case Arith(op, a, b) =>
      (match (Eval(fuel, m, locals, env, a), Eval(fuel, m, locals, env, b))
       case (Some(Done(x, t)), Some(Done(y, u))) =>
         if Numeric(x) && Numeric(y) then Some(Done(VInt(Arithmetically(op, Number(x), Number(y))), t + u)) else None
       case _ => None)
    case Compare(cmp, a, b) =>
      (match (Eval(fuel, m, locals, env, a), Eval(fuel, m, locals, env, b))
       case (Some(Done(x, t)), Some(Done(y, u))) =>
         (match Compared(cmp, x, y) case Some(r) => Some(Done(VBool(r), t + u)) case None => None)
       case _ => None)
    case DictDisplay(items) =>
      (match EvalAll(fuel, m, locals, env, items)
       case Some(Done(vs, t)) => (match Dict(vs) case Some(d) => Some(Done(VDict(d), t)) case None => None)
       case None => None)
    case ListDisplay(es) =>
      (match EvalAll(fuel, m, locals, env, es)
       case Some(Done(vs, t)) => Some(Done(VList(vs), t))
       case None => None)
    case Method(target, attr, args, keyworded) =>
      (match (Eval(fuel, m, locals, env, target), EvalAll(fuel, m, locals, env, args))
       case (Some(Done(x, t)), Some(Done(vs, u))) =>
         if attr != "get" || keyworded then None
         else (match Got(x, vs) case Some(v) => Some(Done(v, t + u)) case None => None)
       case _ => None)
    case Call(name, args, keys, keyValues) =>
      if name in locals then None
      else
        (match (EvalAll(fuel, m, locals, env, args), EvalAll(fuel, m, locals, env, keyValues))
         case (Some(Done(vs, t)), Some(Done(ks, u))) =>
           var found := Find(m.fns, name);
           if found.Some? then
             (match Keywords(keys, ks)
              case Some(kwargs) =>
                if fuel == 0 then None
                else (match Apply(fuel - 1, m, found.value, vs, kwargs)
                      case Some(Done(v, w)) => Some(Done(v, t + u + w))
                      case None => None)
              case None => None)
           else if keys == [] then (match Builtin(name, vs) case Some(v) => Some(Done(v, t + u)) case None => None)
           else None
         case _ => None)
    case Other(_, _) => None
  }

  /** `is` between a value and None, True or False is decided by the values alone, and so is `==` unless
      both sides hold generators. */
  function Compared(cmp: Comparison, a: PyValue, b: PyValue): Option<bool> {
    match cmp
    case Is => if b.VNone? || b.VBool? then Some(a == b) else None
    case IsNot => if b.VNone? || b.VBool? then Some(a != b) else None
    case Eq => if HasGenerator(a) && HasGenerator(b) then None else Some(Equal(a, b))
    case NotEq => if HasGenerator(a) && HasGenerator(b) then None else Some(!Equal(a, b))
    case OtherComparison => None
  }

  /** dict.get with a string key. */
  function Got(target: PyValue, args: seq<PyValue>): Option<PyValue> {
    if target.VDict? && 1 <= |args| <= 2 && args[0].VStr? then
      Some(if args[0].s in target.m then target.m[args[0].s] else if |args| == 2 then args[1] else VNone)
    else None
  }

  function EvalAll(fuel: nat, m: Module, locals: set<Ident>, env: Env, es: seq<Expr>): (r: Option<Done<seq<PyValue>>>)
    ensures r.Some? ==> |r.value.value| == |es|
    decreases fuel, 0, es, 0
  {
    if es == [] then Some(Done([], []))
    else match Eval(fuel, m, locals, env, es[0])
      case None => None
      case Some(Done(v, t)) =>
        match EvalAll(fuel, m, locals, env, es[1..])
        case None => None
        case Some(Done(vs, u)) => Some(Done([v] + vs, t + u))
  }

  /** Does the first operand already decide? */
  predicate Decides(j: Junction, v: PyValue) { (j.Or? && Truthy(v)) || (j.And? && !Truthy(v)) }

  function EvalJunct(fuel: nat, m: Module, locals: set<Ident>, env: Env, j: Junction,
                     es: seq<Expr>): Option<Done<PyValue>>
    requires es != []
    decreases fuel, 0, es, 0
  {
    match Eval(fuel, m, locals, env, es[0])
    case None => None
    case Some(Done(v, t)) =>
      if |es| == 1 || Decides(j, v) then Some(Done(v, t))
      else match EvalJunct(fuel, m, locals, env, j, es[1..])
        case None => None
        case Some(Done(w, u)) => Some(Done(w, t + u))
  }

  predicate Loadable(m: Loaded) {
    && |m.fns| == |m.defaults|
    && forall i :: 0 <= i < |m.fns| ==>
         |m.defaults[i]| == |m.fns[i].defaults| <= |m.fns[i].params| && Distinct(m.fns[i].params)
  }

  /** A call of function `i`, which returns None when its body runs off its end. The call of a generator
      function executes none of its body. */
  function Apply(fuel: nat, m: Module, i: nat, args: seq<PyValue>, kwargs: map<Ident, PyValue>): Option<Done<PyValue>>
    requires i < |m.fns|
    decreases fuel, 2
  {
    var f := m.fns[i];
    match Bound(f, m.defaults[i], args, kwargs)
    case Some(env) =>
      if !f.plain || f.kind.RebindsOuter? then None
      else if f.kind.Generator? then Some(Done(VGenerator, []))
      else (match Run(fuel, m, Locals(f), f.name, env, f.body)
            case Some(Done(exit, t)) => Some(Done(if exit.returned.Some? then exit.returned.value else VNone, t))
            case None => None)
    case None => None
  }

  function Run(fuel: nat, m: Module, locals: set<Ident>, fn: Ident, env: Env, body: seq<Stmt>): Option<Done<Exit>>
    decreases fuel, 1, body
  {
    if body == [] then Some(Done(Exit(None, env), []))
    else match body[0]
      case Return(line, None) => Some(Done(Exit(Some(VNone), env), [Ran(line)]))
      case Return(line, Some(e)) =>
        (match Eval(fuel, m, locals, env, e)
         case Some(Done(v, t)) => Some(Done(Exit(Some(v), env), [Ran(line)] + t))
         case None => None)
      case Assign(line, id, e) =>
        (match Eval(fuel, m, locals, env, e)
         case Some(Done(v, t)) => Then([Ran(line)] + t, Run(fuel, m, locals, fn, env[id := v], body[1..]))
         case None => None)
      case If(line, test, yes, no) =>
        (match Eval(fuel, m, locals, env, test)
         case Some(Done(v, t)) =>
           var head := [Ran(line)] + t + [Branched(fn, line, Truthy(v))];
           (match Run(fuel, m, locals, fn, env, if Truthy(v) then yes else no)
            case Some(Done(exit, u)) =>
              if exit.returned.Some? then Some(Done(exit, head + u))
              else Then(head + u, Run(fuel, m, locals, fn, exit.env, body[1..]))
            case None => None)
         case None => None)
      case DocString(line) => Then([Ran(line)], Run(fuel, m, locals, fn, env, body[1..]))
      case Unknown(_, _, _) => None
  }

  function Then(t: seq<Event>, r: Option<Done<Exit>>): Option<Done<Exit>> {
    match r
    case Some(Done(exit, u)) => Some(Done(exit, t + u))
    case None => None
  }

  /** The lines executed. */
  function Lines(t: seq<Event>): set<nat> {
    if t == [] then {} else Lines(t[..|t| - 1]) + if t[|t| - 1].Ran? then {t[|t| - 1].line} else {}
  }

  /** The module as it was when function `i` was about to be defined. */
  function Prefix(m: Module, i: nat): Module
    requires i <= |m.fns|
  {
    Loaded(m.fns[..i], m.defaults[..i])
  }

  /** The module loads: each `def` is executed, and each default got its value, in the module's own
      scope, from the functions defined so far. */
  ghost predicate LoadsWith(m: Module, fuel: nat) {
    && (forall f <- m.fns :: f.defines)
    && forall i, j :: 0 <= i < |m.fns| && 0 <= j < |m.fns[i].defaults| ==>
         var r := Eval(fuel, Prefix(m, i), {}, map[], m.fns[i].defaults[j]);
         r.Some? && r.value.value == m.defaults[i][j]
  }
}
