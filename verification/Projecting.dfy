/** The bounded static evaluator of app/domain/review/path_observations.py, with the expression
    interpreter of app/domain/review/semantics.py below it. Both give up (no value) rather than guess:
    on more than 160 steps, calls nested deeper than 4, expressions deeper than 12, and on everything
    outside the subset. `State` holds what the object accumulates; the functions are the
    specification and class `Projection` is the evaluator that updates its fields. */
module Projecting {
  import opened Options
  import opened PythonSubset

  const MAX_INTEGER := 10_000_000_000
  const MAX_STRING := 64
  const MAX_SEQUENCE := 32
  const MAX_NESTING := 12

  datatype Limits = Limits(steps: nat, depth: nat)

  const LIMITS := Limits(160, 4)

  // ---- semantics.py: interpret ----

  predicate Small(i: int) { -MAX_INTEGER <= i <= MAX_INTEGER }

  function Interpret(e: Expr, env: Env, nesting: nat): Option<PyValue>
    decreases e, 1
  {
    if nesting > MAX_NESTING then None
    else match e
      case Constant(c) =>
        if (c.CInt? && !Small(c.i)) || (c.CStr? && |c.s| > MAX_STRING) then None else Some(OfConst(c))
      case Name(id) => if id in env then Some(env[id]) else None
      case Neg(a) =>
        (match Interpret(a, env, nesting + 1)
         case Some(VInt(i)) => Some(VInt(-i))
         case _ => None)
      case Junct(j, es) => if es == [] then None else InterpretJunct(j, es, env, nesting + 1)
      case Arith(op, a, b) =>
        (match (Interpret(a, env, nesting + 1), Interpret(b, env, nesting + 1))
         case (Some(VInt(x)), Some(VInt(y))) =>
           var i := Arithmetically(op, x, y);
           if Small(i) then Some(VInt(i)) else None
         case _ => None)
      case Call(name, args, keys, _) =>
        if keys != [] || !IsBuiltin(name) || |args| > 3 then None
        else (match InterpretAll(args, env, nesting + 1)
              case Some(vs) => BoundedBuiltin(name, vs)
              case None => None)
      case _ => None
  }

  function InterpretAll(es: seq<Expr>, env: Env, nesting: nat): (r: Option<seq<PyValue>>)
    ensures r.Some? ==> |r.value| == |es|
    decreases es, 0
  {
    if es == [] then Some([])
    else match Interpret(es[0], env, nesting)
      case None => None
      case Some(v) =>
        match InterpretAll(es[1..], env, nesting)
        case None => None
        case Some(vs) => Some([v] + vs)
  }

  function InterpretJunct(j: Junction, es: seq<Expr>, env: Env, nesting: nat): Option<PyValue>
    requires es != []
    decreases es, 0
  {
    match Interpret(es[0], env, nesting)
    case None => None
    case Some(v) => if |es| == 1 || Decides(j, v) then Some(v) else InterpretJunct(j, es[1..], env, nesting)
  }

  /** `range` answers with a list, of at most 32 elements. */
  function BoundedBuiltin(name: Ident, args: seq<PyValue>): Option<PyValue> {
    if name.Range? && 1 <= |args| <= 3 && AllInts(args) then
      var (start, stop, step) := Bounds(Ints(args));
      if step == 0 || |Counted(start, stop, step)| > MAX_SEQUENCE then None
      else Some(VList(AsValues(Counted(start, stop, step))))
    else if name.List? && |args| == 1 && args[0].VList? then Some(args[0])
    else if name.Len? && |args| == 1 && args[0].VStr? then Some(VInt(|args[0].s|))
    else if name.Len? && |args| == 1 && args[0].VList? then Some(VInt(|args[0].vs|))
    else if (name.Min? || name.Max?) && 1 < |args| <= 3 && AllInts(args) then
      Some(VInt(if name.Min? then Smallest(Ints(args)) else Largest(Ints(args))))
    else None
  }

  // ---- path_observations.py: the specification of Projection ----

  datatype Branch = Branch(fn: Ident, line: nat, taken: bool)

  datatype State = State(steps: nat, branches: seq<Branch>, visited: set<nat>)

  const START := State(0, [], {})

  datatype Ret<T> = Ok(value: T, st: State) | Unsupported

  function Stepped(st: State): State { st.(steps := st.steps + 1) }

  /** Call depth still available: what makes the recursion end. */
  function Room(l: Limits, depth: nat): nat { if depth <= l.depth then l.depth + 1 - depth else 0 }

  predicate StringKeys(items: seq<Expr>) {
    |items| % 2 == 0 && forall i :: 0 <= i < |items| && i % 2 == 0 ==> items[i].Constant? && items[i].c.CStr?
  }

  function Value(l: Limits, fns: seq<Fn>, e: Expr, env: Env, depth: nat, st0: State): Ret<PyValue>
    decreases Room(l, depth), 0, e, 1
  {
    var st := Stepped(st0);
    if st.steps > l.steps || depth > l.depth then Unsupported
    else if e.DictDisplay? && |e.items| <= 16 then
      if !StringKeys(e.items) then Unsupported
      else (match Values(l, fns, e.items, env, depth, st)
            case Ok(vs, u) => (match Dict(vs) case Some(m) => Ok(VDict(m), u) case None => Unsupported)
            case Unsupported => Unsupported)
    else if e.ListDisplay? && |e.elements| <= 16 then
      (match Values(l, fns, e.elements, env, depth, st)
       case Ok(vs, u) => Ok(VList(vs), u)
       case Unsupported => Unsupported)
    else if e.Junct? && e.values != [] then JunctValue(l, fns, e.j, e.values, env, depth, st)
    else if e.Compare? then
      (match Value(l, fns, e.first, env, depth, st)
       case Unsupported => Unsupported
       case Ok(x, u) =>
         match Value(l, fns, e.second, env, depth, u)
         case Unsupported => Unsupported
         case Ok(y, w) => match Compared(e.cmp, x, y) case Some(b) => Ok(VBool(b), w) case None => Unsupported)
    else if e.Method? && e.attr == "get" && !e.keyworded then
      (match Value(l, fns, e.target, env, depth, st)
       case Unsupported => Unsupported
       case Ok(x, u) =>
         match Values(l, fns, e.margs, env, depth, u)
         case Unsupported => Unsupported
         case Ok(vs, w) => match Got(x, vs) case Some(v) => Ok(v, w) case None => Unsupported)
    else if e.Call? && Find(fns, e.name).Some? then
      if e.name in env || None in e.keys then Unsupported
      else (match Values(l, fns, e.args, env, depth, st)
            case Unsupported => Unsupported
            case Ok(vs, u) =>
              match Values(l, fns, e.keyValues, env, depth, u)
              case Unsupported => Unsupported
              case Ok(ks, w) =>
                match Keywords(e.keys, ks)
                case None => Unsupported
                case Some(kwargs) => Called(l, fns, e.name, vs, kwargs, depth + 1, w))
    else match Interpret(e, env, 0) case Some(v) => Ok(v, st) case None => Unsupported
  }

  function Values(l: Limits, fns: seq<Fn>, es: seq<Expr>, env: Env, depth: nat, st: State): (r: Ret<seq<PyValue>>)
    ensures r.Ok? ==> |r.value| == |es|
    decreases Room(l, depth), 0, es, 0
  {
    if es == [] then Ok([], st)
    else match Value(l, fns, es[0], env, depth, st)
      case Unsupported => Unsupported
      case Ok(v, u) =>
        match Values(l, fns, es[1..], env, depth, u)
        case Unsupported => Unsupported
        case Ok(vs, w) => Ok([v] + vs, w)
  }

  function JunctValue(l: Limits, fns: seq<Fn>, j: Junction, es: seq<Expr>, env: Env, depth: nat,
                      st: State): Ret<PyValue>
    requires es != []
    decreases Room(l, depth), 0, es, 0
  {
    match Value(l, fns, es[0], env, depth, st)
    case Unsupported => Unsupported
    case Ok(v, u) => if |es| == 1 || Decides(j, v) then Ok(v, u) else JunctValue(l, fns, j, es[1..], env, depth, u)
  }

  /** Names stored anywhere in the `def`, its defaults, annotations and decorators included. */
  function AllStores(f: Fn): set<Ident> { f.stored + AllBind(f.defaults) + Stores(f.body) }

  /** The guards of `call` before anything is evaluated. */
  predicate Callable(f: Fn, args: nat, kwargs: set<Ident>) {
    && f.plain && |f.params| <= 4 && args <= |f.params| && |f.defaults| <= |f.params|
    && kwargs <= (set p | p in f.params)
    && (set p | p in f.params[..args]) !! kwargs
    && NoBuiltin(AllStores(f)) && (forall p <- f.params :: !IsBuiltin(p))
  }

  function Zip(names: seq<Ident>, values: seq<PyValue>): Env
    requires |names| <= |values|
  {
    if names == [] then map[] else Zip(names[..|names| - 1], values)[names[|names| - 1] := values[|names| - 1]]
  }

  /** Defaults, then positional arguments, then keyword arguments. */
  function Gathered(f: Fn, ds: seq<PyValue>, args: seq<PyValue>, kwargs: map<Ident, PyValue>): Env
    requires |args| <= |f.params| && |ds| <= |f.params|
  {
    Zip(f.params[|f.params| - |ds|..], ds) + Zip(f.params[..|args|], args) + kwargs
  }

  function Called(l: Limits, fns: seq<Fn>, name: Ident, args: seq<PyValue>, kwargs: map<Ident, PyValue>, depth: nat,
                  st: State): Ret<PyValue>
    decreases Room(l, depth), 3
  {
    if depth > l.depth || Find(fns, name).None? then Unsupported
    else
      var f := fns[Find(fns, name).value];
      if !Callable(f, |args|, kwargs.Keys) then Unsupported
      else match Values(l, fns, f.defaults, map[], depth, st)
        case Unsupported => Unsupported
        case Ok(ds, u) => RunBody(l, fns, name, f, Gathered(f, ds, args, kwargs), depth, u)
  }

  /** The body, once every parameter is bound. */
  function RunBody(l: Limits, fns: seq<Fn>, name: Ident, f: Fn, env: Env, depth: nat, st: State): Ret<PyValue>
    decreases Room(l, depth), 2
  {
    if env.Keys != (set p | p in f.params) then Unsupported
    else match Block(l, fns, name, f.body, env, depth, st)
      case Unsupported => Unsupported
      case Ok(exit, w) => if exit.returned.Some? then Ok(exit.returned.value, w) else Unsupported
  }

  function Block(l: Limits, fns: seq<Fn>, name: Ident, body: seq<Stmt>, env: Env, depth: nat, st: State): Ret<Exit>
    decreases Room(l, depth), 1, body
  {
    if body == [] then Ok(Exit(None, env), st)
    else
      var here := Stepped(st).(visited := st.visited + {body[0].line});
      if here.steps > l.steps then Unsupported
      else match body[0]
        case Return(_, Some(e)) =>
          (match Value(l, fns, e, env, depth, here)
           case Unsupported => Unsupported
           case Ok(v, u) => Ok(Exit(Some(v), env), u))
        case Assign(_, id, e) =>
          (match Value(l, fns, e, env, depth, here)
           case Unsupported => Unsupported
           case Ok(v, u) => Block(l, fns, name, body[1..], env[id := v], depth, u))
        case If(line, test, yes, no) =>
          (match Value(l, fns, test, env, depth, here)
           case Unsupported => Unsupported
           case Ok(v, u) =>
             var w := u.(branches := u.branches + [Branch(name, line, Truthy(v))]);
             match Block(l, fns, name, if Truthy(v) then yes else no, env, depth, w)
             case Unsupported => Unsupported
             case Ok(exit, x) =>
               if exit.returned.Some? then Ok(exit, x)
               else Block(l, fns, name, body[1..], exit.env, depth, x))
        case DocString(_) => Block(l, fns, name, body[1..], env, depth, here)
        case _ => Unsupported
  }
}
