/** Assertion projection is sound: on files it can be trusted on, what it answers is what Python does. */
module Soundness {
  import opened Options
  import opened PythonSubset
  import opened Projecting
  import opened ReferenceLaws

  // ---- Files projection can be trusted on ----

  /** `range(...)` occurs only as the argument of `list(...)` or `len(...)`, because projection takes
      a range for the list of its elements. Keyword names and values come in pairs. */
  ghost predicate Fair(e: Expr)
    decreases e, 1
  {
    match e
    case Constant(_) => true
    case Name(_) => true
    case Neg(a) => Fair(a)
    case Junct(_, es) => es != [] && AllFair(es)
    case Arith(_, a, b) => Fair(a) && Fair(b)
    case Compare(_, a, b) => Fair(a) && Fair(b)
    case DictDisplay(es) => AllFair(es)
    case ListDisplay(es) => AllFair(es)
    case Method(a, _, es, _) => Fair(a) && AllFair(es)
    case Call(name, args, keys, kvs) =>
      && !name.Range? && |keys| == |kvs| && AllFair(kvs)
      && (AllFair(args) || (UnwrapsRange(e) && AllFair(args[0].args)))
    case Other(_, _) => true
  }

  predicate UnwrapsRange(e: Expr) {
    && e.Call? && (e.name.List? || e.name.Len?) && |e.args| == 1 && e.keys == [] && e.keyValues == []
    && e.args[0].Call? && e.args[0].name.Range? && e.args[0].keys == [] && e.args[0].keyValues == []
  }

  ghost predicate AllFair(es: seq<Expr>)
    decreases es, 0
  {
    es == [] || (Fair(es[0]) && AllFair(es[1..]))
  }

  ghost predicate FairBody(body: seq<Stmt>) {
    body == [] || (FairBody(body[1..]) &&
                   match body[0]
                   case Return(_, Some(e)) => Fair(e)
                   case Assign(_, _, e) => Fair(e)
                   case If(_, e, yes, no) => Fair(e) && FairBody(yes) && FairBody(no)
                   case _ => true)
  }

  /** The function is ordinary - no generator, and declaring no name of an outer scope - and makes its
      own no name that is a builtin or a function of the file. */
  ghost predicate TrustedFn(fns: seq<Fn>, f: Fn) {
    && f.kind.Ordinary? && NoBuiltin(Own(f)) && (forall x :: x in Own(f) ==> Find(fns, x).None?)
    && AllFair(f.defaults) && FairBody(f.body)
  }

  ghost predicate TrustedUpTo(fns: seq<Fn>, n: nat)
    requires n <= |fns|
  {
    n == 0 || (TrustedFn(fns, fns[n - 1]) && TrustedUpTo(fns, n - 1))
  }

  /** No function has the name of a builtin, and all functions can be trusted. */
  ghost predicate Trusted(fns: seq<Fn>) { WellFormed(fns) && NoneShadows(fns) && TrustedUpTo(fns, |fns|) }

  lemma {:induction false} TrustedAt(fns: seq<Fn>, n: nat, i: nat)
    requires i < n <= |fns| && TrustedUpTo(fns, n)
    ensures TrustedFn(fns, fns[i])
  {
    if i < n - 1 {
      TrustedAt(fns, n - 1, i);
    }
  }

  /** Scope of an expression: locals that are not bound yet name neither a builtin nor a function. */
  ghost predicate Scope(fns: seq<Fn>, locals: set<Ident>, env: Env) {
    && NoBuiltin(locals) && NoneShadows(fns)
    && forall x :: x in locals && Find(fns, x).Some? ==> x in env
  }

  // ---- interpret agrees with Python ----

  lemma {:induction false} InterpretSound(fuel: nat, m: Module, locals: set<Ident>, env: Env, e: Expr, nesting: nat)
    requires Scope(m.fns, locals, env) && Fair(e)
    requires Interpret(e, env, nesting).Some?
    ensures Eval(fuel, m, locals, env, e) == Some(Done(Interpret(e, env, nesting).value, []))
    decreases e, 1
  {
    NoTrace();
    match e {
      case Constant(_) =>
      case Name(_) =>
      case Neg(a) => InterpretSound(fuel, m, locals, env, a, nesting + 1);
      case Junct(j, es) => InterpretJunctSound(fuel, m, locals, env, j, es, nesting + 1);
      case Arith(_, a, b) =>
        InterpretSound(fuel, m, locals, env, a, nesting + 1);
        InterpretSound(fuel, m, locals, env, b, nesting + 1);
      case Call(_, _, _, _) => InterpretCallSound(fuel, m, locals, env, e, nesting);
      case _ =>
    }
  }

  lemma {:induction false} InterpretCallSound(fuel: nat, m: Module, locals: set<Ident>, env: Env, e: Expr, nesting: nat)
    requires Scope(m.fns, locals, env) && Fair(e) && e.Call?
    requires Interpret(e, env, nesting).Some?
    ensures Eval(fuel, m, locals, env, e) == Some(Done(Interpret(e, env, nesting).value, []))
    decreases e, 0
  {
    assert e.keyValues == [];
    if AllFair(e.args) {
      InterpretAllSound(fuel, m, locals, env, e.args, nesting + 1);
      BuiltinCall(fuel, m, locals, env, e, InterpretAll(e.args, env, nesting + 1).value);
    } else {
      UnwrappedSound(fuel, m, locals, env, e, nesting);
    }
  }

  /** list(range(...)) and len(range(...)): the one place where the list taken for a range cannot
      be told from it. */
  lemma {:induction false} UnwrappedSound(fuel: nat, m: Module, locals: set<Ident>, env: Env, e: Expr, nesting: nat)
    requires Scope(m.fns, locals, env) && UnwrapsRange(e) && AllFair(e.args[0].args) && Find(m.fns, e.name).None?
    requires Interpret(e, env, nesting).Some?
    ensures Eval(fuel, m, locals, env, e) == Some(Done(Interpret(e, env, nesting).value, []))
    decreases e.args[0], 1
  {
    InterpretOne(e.args, env, nesting + 1);
    var ints := RangeSound(fuel, m, locals, env, e.args[0], nesting + 1);
    EvalOne(fuel, m, locals, env, e.args);
    BuiltinCall(fuel, m, locals, env, e, [VRange(ints)]);
  }

  const NOTHING: seq<Event> := []

  lemma BuiltinCall(fuel: nat, m: Module, locals: set<Ident>, env: Env, e: Expr, vs: seq<PyValue>)
    requires e.Call? && e.name !in locals && Find(m.fns, e.name).None? && e.keys == [] && e.keyValues == []
    requires EvalAll(fuel, m, locals, env, e.args) == Some(Done(vs, [])) && Builtin(e.name, vs).Some?
    ensures Eval(fuel, m, locals, env, e) == Some(Done(Builtin(e.name, vs).value, []))
  {
    assert EvalAll(fuel, m, locals, env, e.keyValues) == Some(Done([], []));
    assert [] + [] == NOTHING;
  }

  lemma {:induction false} RangeSound(fuel: nat, m: Module, locals: set<Ident>, env: Env, e: Expr, nesting: nat)
    returns (ints: seq<int>)
    requires Scope(m.fns, locals, env) && e.Call? && e.name.Range? && e.keys == [] && e.keyValues == []
             && AllFair(e.args)
    requires Interpret(e, env, nesting).Some?
    ensures Interpret(e, env, nesting) == Some(VList(AsValues(ints)))
    ensures Eval(fuel, m, locals, env, e) == Some(Done(VRange(ints), []))
    decreases e, 0
  {
    InterpretAllSound(fuel, m, locals, env, e.args, nesting + 1);
    var vs := InterpretAll(e.args, env, nesting + 1).value;
    var (start, stop, step) := Bounds(Ints(vs));
    ints := Counted(start, stop, step);
    BuiltinCall(fuel, m, locals, env, e, vs);
  }

  lemma InterpretOne(es: seq<Expr>, env: Env, nesting: nat)
    requires |es| == 1 && InterpretAll(es, env, nesting).Some?
    ensures Interpret(es[0], env, nesting).Some?
            && InterpretAll(es, env, nesting).value == [Interpret(es[0], env, nesting).value]
  {
    assert es[1..] == [];
  }

  lemma EvalOne(fuel: nat, m: Module, locals: set<Ident>, env: Env, es: seq<Expr>)
    requires |es| == 1 && Eval(fuel, m, locals, env, es[0]).Some?
    ensures var r := Eval(fuel, m, locals, env, es[0]).value;
            EvalAll(fuel, m, locals, env, es) == Some(Done([r.value], r.trace))
  {
    var r := Eval(fuel, m, locals, env, es[0]).value;
    assert es[1..] == [] && [r.value] + [] == [r.value] && r.trace + [] == r.trace;
  }

  lemma NoTrace()
    ensures forall t: seq<Event> :: [] + t == t == t + []
  {}

  lemma {:induction false} InterpretAllSound(fuel: nat, m: Module, locals: set<Ident>, env: Env, es: seq<Expr>,
                                             nesting: nat)
    requires Scope(m.fns, locals, env) && AllFair(es)
    requires InterpretAll(es, env, nesting).Some?
    ensures EvalAll(fuel, m, locals, env, es) == Some(Done(InterpretAll(es, env, nesting).value, []))
    decreases es, 0
  {
    NoTrace();
    if es != [] {
      InterpretSound(fuel, m, locals, env, es[0], nesting);
      InterpretAllSound(fuel, m, locals, env, es[1..], nesting);
    }
  }

  lemma {:induction false} InterpretJunctSound(fuel: nat, m: Module, locals: set<Ident>, env: Env, j: Junction,
                                               es: seq<Expr>, nesting: nat)
    requires Scope(m.fns, locals, env) && es != [] && AllFair(es)
    requires InterpretJunct(j, es, env, nesting).Some?
    ensures EvalJunct(fuel, m, locals, env, j, es) == Some(Done(InterpretJunct(j, es, env, nesting).value, []))
    decreases es, 0
  {
    NoTrace();
    InterpretSound(fuel, m, locals, env, es[0], nesting);
    if |es| > 1 && !Decides(j, Interpret(es[0], env, nesting).value) {
      InterpretJunctSound(fuel, m, locals, env, j, es[1..], nesting);
    }
  }

  // ---- What projection records against what Python executes ----

  function Branches(t: seq<Event>): seq<Branch> {
    if t == [] then []
    else
      Branches(t[..|t| - 1])
      + (match t[|t| - 1] case Ran(_) => [] case Branched(fn, line, taken) => [Branch(fn, line, taken)])
  }

  /** No default of the file calls a function of the file. */
  ghost predicate PlainDefaults(fns: seq<Fn>) { PlainUpTo(fns, |fns|) }

  ghost predicate PlainUpTo(fns: seq<Fn>, n: nat)
    requires n <= |fns|
  {
    n == 0 || (AllCallFree(fns, fns[n - 1].defaults) && PlainUpTo(fns, n - 1))
  }

  lemma {:induction false} PlainAt(fns: seq<Fn>, n: nat, i: nat)
    requires i < n <= |fns| && PlainUpTo(fns, n)
    ensures AllCallFree(fns, fns[i].defaults)
  {
    if i < n - 1 {
      PlainAt(fns, n - 1, i);
    }
  }

  /** From `a` to `b` projection recorded the executed lines, and exactly these and the branches
      taken when defaults are plain: defaults are evaluated at each call, not once. */
  ghost predicate Records(fns: seq<Fn>, t: seq<Event>, a: State, b: State) {
    && a.visited + Lines(t) <= b.visited
    && (PlainDefaults(fns) ==> b.visited == a.visited + Lines(t) && b.branches == a.branches + Branches(t))
  }

  lemma {:induction false} BranchesAppend(t: seq<Event>, u: seq<Event>)
    ensures Branches(t + u) == Branches(t) + Branches(u)
  {
    if u == [] {
      assert t + u == t;
    } else {
      var n := |u| - 1;
      assert (t + u)[..|t| + n] == t + u[..n];
      BranchesAppend(t, u[..n]);
    }
  }

  lemma {:induction false} LinesAppend(t: seq<Event>, u: seq<Event>)
    ensures Lines(t + u) == Lines(t) + Lines(u)
  {
    if u == [] {
      assert t + u == t;
    } else {
      var n := |u| - 1;
      assert (t + u)[..|t| + n] == t + u[..n];
      LinesAppend(t, u[..n]);
    }
  }

  lemma OneEvent(e: Event)
    ensures Lines([e]) == (if e.Ran? then {e.line} else {})
    ensures Branches([e]) == if e.Ran? then [] else [Branch(e.fn, e.line, e.taken)]
  {
    assert [e][..0] == [];
  }

  lemma RecordsThen(fns: seq<Fn>, t: seq<Event>, u: seq<Event>, a: State, b: State, c: State)
    requires Records(fns, t, a, b) && Records(fns, u, b, c)
    ensures Records(fns, t + u, a, c)
  {
    BranchesAppend(t, u);
    LinesAppend(t, u);
  }

  lemma RecordsNothing(fns: seq<Fn>, a: State, b: State)
    requires b.visited == a.visited && b.branches == a.branches
    ensures Records(fns, [], a, b)
  {}

  // ---- Soundness ----

  ghost predicate Loads(m: Module) { exists fuel: nat :: LoadsWith(m, fuel) }

  /** What is assumed of a file throughout: it can be trusted, and it loads. */
  type Script = m: Module | Trusted(m.fns) && Loads(m) ghost witness Empty()

  ghost function Empty(): (m: Module)
    ensures Trusted(m.fns) && Loads(m)
  {
    var m: Module := Loaded([], []);
    assert LoadsWith(m, 0);
    m
  }

  lemma {:induction false} SoundValue(l: Limits, m: Script, locals: set<Ident>, e: Expr, env: Env, depth: nat,
                                      st: State)
    requires Scope(m.fns, locals, env) && Fair(e)
    requires Value(l, m.fns, e, env, depth, st).Ok?
    ensures depth <= l.depth
    ensures var r, ok := Eval(l.depth - depth, m, locals, env, e), Value(l, m.fns, e, env, depth, st);
            r.Some? && r.value.value == ok.value && Records(m.fns, r.value.trace, st, ok.st)
    decreases Room(l, depth), 0, e, 3
  {
    var here := Stepped(st);
    if (e.DictDisplay? && |e.items| <= 16) || (e.ListDisplay? && |e.elements| <= 16) {
      SoundDisplay(l, m, locals, e, env, depth, st);
    } else if e.Junct? && e.values != [] {
      SoundJunct(l, m, locals, e.j, e.values, env, depth, here);
    } else if e.Compare? {
      SoundCompare(l, m, locals, e, env, depth, st);
    } else if e.Method? && e.attr == "get" && !e.keyworded {
      SoundGet(l, m, locals, e, env, depth, st);
    } else if e.Call? && Find(m.fns, e.name).Some? {
      SoundFileCall(l, m, locals, e, env, depth, st);
    } else {
      InterpretSound(l.depth - depth, m, locals, env, e, 0);
      RecordsNothing(m.fns, st, here);
    }
  }

  lemma {:induction false} SoundDisplay(l: Limits, m: Script, locals: set<Ident>, e: Expr, env: Env, depth: nat,
                                        st: State)
    requires Scope(m.fns, locals, env) && Fair(e)
             && ((e.DictDisplay? && |e.items| <= 16) || (e.ListDisplay? && |e.elements| <= 16))
    requires Value(l, m.fns, e, env, depth, st).Ok?
    ensures depth <= l.depth
    ensures var r, ok := Eval(l.depth - depth, m, locals, env, e), Value(l, m.fns, e, env, depth, st);
            r.Some? && r.value.value == ok.value && Records(m.fns, r.value.trace, st, ok.st)
    decreases Room(l, depth), 0, e, 1
  {
    SoundValues(l, m, locals, if e.DictDisplay? then e.items else e.elements, env, depth, Stepped(st));
  }

  lemma {:induction false} SoundCompare(l: Limits, m: Script, locals: set<Ident>, e: Expr, env: Env, depth: nat,
                                        st: State)
    requires Scope(m.fns, locals, env) && e.Compare? && Fair(e.first) && Fair(e.second)
    requires Value(l, m.fns, e, env, depth, st).Ok?
    ensures depth <= l.depth
    ensures var r, ok := Eval(l.depth - depth, m, locals, env, e), Value(l, m.fns, e, env, depth, st);
            r.Some? && r.value.value == ok.value && Records(m.fns, r.value.trace, st, ok.st)
    decreases Room(l, depth), 0, e, 1
  {
    var fuel, here := l.depth - depth, Stepped(st);
    SoundValue(l, m, locals, e.first, env, depth, here);
    var x := Value(l, m.fns, e.first, env, depth, here);
    SoundValue(l, m, locals, e.second, env, depth, x.st);
    var y := Value(l, m.fns, e.second, env, depth, x.st);
    var t, u := Eval(fuel, m, locals, env, e.first).value.trace, Eval(fuel, m, locals, env, e.second).value.trace;
    RecordsThen(m.fns, t, u, here, x.st, y.st);
    CompareAgrees(l, m, locals, e, env, depth, st, fuel, x, y, t, u);
  }

  lemma CompareAgrees(l: Limits, m: Module, locals: set<Ident>, e: Expr, env: Env, depth: nat, st: State, fuel: nat,
                      x: Ret<PyValue>, y: Ret<PyValue>, t: seq<Event>, u: seq<Event>)
    requires e.Compare? && Value(l, m.fns, e, env, depth, st).Ok? && x.Ok? && y.Ok?
    requires x == Value(l, m.fns, e.first, env, depth, Stepped(st)) && y == Value(l, m.fns, e.second, env, depth, x.st)
    requires Eval(fuel, m, locals, env, e.first) == Some(Done(x.value, t))
    requires Eval(fuel, m, locals, env, e.second) == Some(Done(y.value, u))
    ensures Compared(e.cmp, x.value, y.value).Some?
    ensures var b := VBool(Compared(e.cmp, x.value, y.value).value);
            Value(l, m.fns, e, env, depth, st) == Ok(b, y.st) && Eval(fuel, m, locals, env, e) == Some(Done(b, t + u))
  {}

  lemma {:induction false} SoundGet(l: Limits, m: Script, locals: set<Ident>, e: Expr, env: Env, depth: nat, st: State)
    requires Scope(m.fns, locals, env) && e.Method? && e.attr == "get" && !e.keyworded && Fair(e.target)
             && AllFair(e.margs)
    requires Value(l, m.fns, e, env, depth, st).Ok?
    ensures depth <= l.depth
    ensures var r, ok := Eval(l.depth - depth, m, locals, env, e), Value(l, m.fns, e, env, depth, st);
            r.Some? && r.value.value == ok.value && Records(m.fns, r.value.trace, st, ok.st)
    decreases Room(l, depth), 0, e, 1
  {
    var fuel, here := l.depth - depth, Stepped(st);
    SoundValue(l, m, locals, e.target, env, depth, here);
    var x := Value(l, m.fns, e.target, env, depth, here);
    SoundValues(l, m, locals, e.margs, env, depth, x.st);
    var vs := Values(l, m.fns, e.margs, env, depth, x.st);
    var t, u := Eval(fuel, m, locals, env, e.target).value.trace, EvalAll(fuel, m, locals, env, e.margs).value.trace;
    RecordsThen(m.fns, t, u, here, x.st, vs.st);
    GetAgrees(l, m, locals, e, env, depth, st, fuel, x, vs, t, u);
  }

  lemma GetAgrees(l: Limits, m: Module, locals: set<Ident>, e: Expr, env: Env, depth: nat, st: State, fuel: nat,
                  x: Ret<PyValue>, vs: Ret<seq<PyValue>>, t: seq<Event>, u: seq<Event>)
    requires e.Method? && e.attr == "get" && !e.keyworded && Value(l, m.fns, e, env, depth, st).Ok? && x.Ok? && vs.Ok?
    requires x == Value(l, m.fns, e.target, env, depth, Stepped(st))
    requires vs == Values(l, m.fns, e.margs, env, depth, x.st)
    requires Eval(fuel, m, locals, env, e.target) == Some(Done(x.value, t))
    requires EvalAll(fuel, m, locals, env, e.margs) == Some(Done(vs.value, u))
    ensures Got(x.value, vs.value).Some?
    ensures var v := Got(x.value, vs.value).value;
            Value(l, m.fns, e, env, depth, st) == Ok(v, vs.st) && Eval(fuel, m, locals, env, e) == Some(Done(v, t + u))
  {}

  /** What projecting a call of a function of the file comes to. */
  lemma FileCallIs(l: Limits, fns: seq<Fn>, e: Expr, env: Env, depth: nat, st: State)
    returns (args: Ret<seq<PyValue>>, given: Ret<seq<PyValue>>, kwargs: map<Ident, PyValue>)
    requires e.Call? && Find(fns, e.name).Some? && Value(l, fns, e, env, depth, st).Ok?
    ensures e.name !in env && depth < l.depth
    ensures args == Values(l, fns, e.args, env, depth, Stepped(st)) && args.Ok?
    ensures given == Values(l, fns, e.keyValues, env, depth, args.st) && given.Ok?
    ensures Keywords(e.keys, given.value) == Some(kwargs)
    ensures Value(l, fns, e, env, depth, st) == Called(l, fns, e.name, args.value, kwargs, depth + 1, given.st)
  {
    args := Values(l, fns, e.args, env, depth, Stepped(st));
    given := Values(l, fns, e.keyValues, env, depth, args.st);
    kwargs := Keywords(e.keys, given.value).value;
    CalledWithin(l, fns, e.name, args.value, kwargs, depth + 1, given.st);
  }

  lemma {:induction false} SoundFileCall(l: Limits, m: Script, locals: set<Ident>, e: Expr, env: Env, depth: nat,
                                         st: State)
    requires Scope(m.fns, locals, env) && Fair(e) && e.Call? && Find(m.fns, e.name).Some?
    requires Value(l, m.fns, e, env, depth, st).Ok?
    ensures depth <= l.depth
    ensures var r, ok := Eval(l.depth - depth, m, locals, env, e), Value(l, m.fns, e, env, depth, st);
            r.Some? && r.value.value == ok.value && Records(m.fns, r.value.trace, st, ok.st)
    decreases Room(l, depth), 0, e, 2
  {
    NotARange(m.fns, e);
    var i, called := Find(m.fns, e.name).value, Value(l, m.fns, e, env, depth, st);
    var args, given, kwargs := FileCallIs(l, m.fns, e, env, depth, st);
    var vs, ks := SoundArguments(l, m, locals, e, env, depth, l.depth - depth, Stepped(st), args, given);
    var v := SoundCall(l, m, locals, e, env, depth, l.depth - depth, vs, ks, kwargs, i, Stepped(st), args.st, given.st,
                       called);
    RecordsFrom(m.fns, v.trace, st, Stepped(st), called.st);
  }

  lemma CalledWithin(l: Limits, fns: seq<Fn>, name: Ident, args: seq<PyValue>, kwargs: map<Ident, PyValue>, depth: nat,
                     st: State)
    requires Called(l, fns, name, args, kwargs, depth, st).Ok?
    ensures depth <= l.depth
  {}

  /** Counting a step records nothing. */
  lemma RecordsFrom(fns: seq<Fn>, t: seq<Event>, a: State, b: State, c: State)
    requires b == Stepped(a) && Records(fns, t, b, c)
    ensures Records(fns, t, a, c)
  {}

  lemma {:induction false} SoundArguments(l: Limits, m: Script, locals: set<Ident>, e: Expr, env: Env, depth: nat,
                                          fuel: nat, st: State, args: Ret<seq<PyValue>>, given: Ret<seq<PyValue>>)
    returns (vs: Done<seq<PyValue>>, ks: Done<seq<PyValue>>)
    requires Scope(m.fns, locals, env) && e.Call? && AllFair(e.args) && AllFair(e.keyValues) && depth + fuel == l.depth
    requires args == Values(l, m.fns, e.args, env, depth, st) && args.Ok?
    requires given == Values(l, m.fns, e.keyValues, env, depth, args.st) && given.Ok?
    ensures EvalAll(fuel, m, locals, env, e.args) == Some(vs) && EvalAll(fuel, m, locals, env, e.keyValues) == Some(ks)
    ensures vs.value == args.value && ks.value == given.value
    ensures Records(m.fns, vs.trace, st, args.st) && Records(m.fns, ks.trace, args.st, given.st)
    decreases Room(l, depth), 0, e, 0
  {
    SoundValues(l, m, locals, e.args, env, depth, st);
    SoundValues(l, m, locals, e.keyValues, env, depth, args.st);
    vs := EvalAll(fuel, m, locals, env, e.args).value;
    ks := EvalAll(fuel, m, locals, env, e.keyValues).value;
  }

  lemma {:induction false} SoundApplied(l: Limits, m: Script, i: nat, name: Ident, args: seq<PyValue>,
                                        kwargs: map<Ident, PyValue>, depth: nat, fuel: nat, st: State,
                                        called: Ret<PyValue>)
    returns (r: Done<PyValue>)
    requires called == Called(l, m.fns, name, args, kwargs, depth, st) && called.Ok? && depth + fuel == l.depth
             && Find(m.fns, name) == Some(i)
    ensures i < |m.fns| && Apply(fuel, m, i, args, kwargs) == Some(r)
    ensures r.value == called.value && Records(m.fns, r.trace, st, called.st)
    decreases Room(l, depth), 4
  {
    r := SoundCalled(l, m, name, args, kwargs, depth, st);
    assert l.depth - depth == fuel;
  }

  /** A call whose arguments are evaluated. */
  lemma {:induction false} SoundCall(l: Limits, m: Script, locals: set<Ident>, e: Expr, env: Env, depth: nat, fuel: nat,
                                     vs: Done<seq<PyValue>>, ks: Done<seq<PyValue>>, kwargs: map<Ident, PyValue>,
                                     i: nat, a: State, b: State, c: State, called: Ret<PyValue>)
    returns (v: Done<PyValue>)
    requires e.Call? && e.name !in locals && Find(m.fns, e.name) == Some(i) && 0 < fuel && depth + fuel == l.depth
    requires EvalAll(fuel, m, locals, env, e.args) == Some(vs) && EvalAll(fuel, m, locals, env, e.keyValues) == Some(ks)
    requires Keywords(e.keys, ks.value) == Some(kwargs)
    requires Records(m.fns, vs.trace, a, b) && Records(m.fns, ks.trace, b, c)
    requires called == Called(l, m.fns, e.name, vs.value, kwargs, depth + 1, c) && called.Ok?
    ensures Eval(fuel, m, locals, env, e) == Some(v)
    ensures v.value == called.value && Records(m.fns, v.trace, a, called.st)
    decreases Room(l, depth), 0, e, 1
  {
    var r := SoundApplied(l, m, i, e.name, vs.value, kwargs, depth + 1, fuel - 1, c, called);
    v := CallRecords(fuel, fuel - 1, m, locals, env, e, i, vs, ks, kwargs, r, a, b, c, called.st);
  }

  lemma CallRecords(fuel: nat, less: nat, m: Module, locals: set<Ident>, env: Env, e: Expr, i: nat,
                    vs: Done<seq<PyValue>>, ks: Done<seq<PyValue>>, kwargs: map<Ident, PyValue>,
                    r: Done<PyValue>, a: State, b: State, c: State, d: State)
    returns (v: Done<PyValue>)
    requires fuel == less + 1 && e.Call? && e.name !in locals && Find(m.fns, e.name) == Some(i) && i < |m.fns|
    requires EvalAll(fuel, m, locals, env, e.args) == Some(vs) && EvalAll(fuel, m, locals, env, e.keyValues) == Some(ks)
    requires Keywords(e.keys, ks.value) == Some(kwargs) && Apply(less, m, i, vs.value, kwargs) == Some(r)
    requires Records(m.fns, vs.trace, a, b) && Records(m.fns, ks.trace, b, c) && Records(m.fns, r.trace, c, d)
    ensures Eval(fuel, m, locals, env, e) == Some(v) && v.value == r.value && Records(m.fns, v.trace, a, d)
  {
    CallIs(fuel, m, locals, env, e, i, vs, ks, kwargs);
    v := Done(r.value, vs.trace + ks.trace + r.trace);
    RecordsThree(m.fns, vs.trace, ks.trace, r.trace, a, b, c, d);
  }

  lemma RecordsThree(fns: seq<Fn>, t: seq<Event>, u: seq<Event>, w: seq<Event>, a: State, b: State, c: State, d: State)
    requires Records(fns, t, a, b) && Records(fns, u, b, c) && Records(fns, w, c, d)
    ensures Records(fns, t + u + w, a, d)
  {
    RecordsThen(fns, t, u, a, b, c);
    RecordsThen(fns, t + u, w, a, c, d);
  }

  lemma NotARange(fns: seq<Fn>, e: Expr)
    requires NoneShadows(fns) && e.Call? && Find(fns, e.name).Some? && Fair(e)
    ensures AllFair(e.args) && AllFair(e.keyValues)
  {
    assert !IsBuiltin(e.name);
  }

  lemma {:induction false} SoundValues(l: Limits, m: Script, locals: set<Ident>, es: seq<Expr>, env: Env, depth: nat,
                                       st: State)
    requires Scope(m.fns, locals, env) && AllFair(es) && depth <= l.depth
    requires Values(l, m.fns, es, env, depth, st).Ok?
    ensures var r, ok := EvalAll(l.depth - depth, m, locals, env, es), Values(l, m.fns, es, env, depth, st);
            r.Some? && r.value.value == ok.value && Records(m.fns, r.value.trace, st, ok.st)
    decreases Room(l, depth), 0, es, 0
  {
    if es == [] {
      RecordsNothing(m.fns, st, st);
    } else {
      SoundValue(l, m, locals, es[0], env, depth, st);
      var u := Value(l, m.fns, es[0], env, depth, st).st;
      SoundValues(l, m, locals, es[1..], env, depth, u);
      RecordsThen(m.fns, Eval(l.depth - depth, m, locals, env, es[0]).value.trace,
                  EvalAll(l.depth - depth, m, locals, env, es[1..]).value.trace, st, u,
                  Values(l, m.fns, es[1..], env, depth, u).st);
    }
  }

  lemma {:induction false} SoundJunct(l: Limits, m: Script, locals: set<Ident>, j: Junction, es: seq<Expr>, env: Env,
                                      depth: nat, st: State)
    requires Scope(m.fns, locals, env) && es != [] && AllFair(es)
    requires JunctValue(l, m.fns, j, es, env, depth, st).Ok?
    ensures depth <= l.depth
    ensures var r, ok := EvalJunct(l.depth - depth, m, locals, env, j, es), JunctValue(l, m.fns, j, es, env, depth, st);
            r.Some? && r.value.value == ok.value && Records(m.fns, r.value.trace, st, ok.st)
    decreases Room(l, depth), 0, es, 0
  {
    SoundValue(l, m, locals, es[0], env, depth, st);
    var v := Value(l, m.fns, es[0], env, depth, st);
    if |es| > 1 && !Decides(j, v.value) {
      SoundJunct(l, m, locals, j, es[1..], env, depth, v.st);
      RecordsThen(m.fns, Eval(l.depth - depth, m, locals, env, es[0]).value.trace,
                  EvalJunct(l.depth - depth, m, locals, env, j, es[1..]).value.trace, st, v.st,
                  JunctValue(l, m.fns, j, es[1..], env, depth, v.st).st);
    }
  }

  /** Evaluating a default at the call gives the value it got when the function was defined. */
  lemma {:induction false} DefaultsKeepTheirValue(m: Script, fuel: nat, i: nat)
    requires i < |m.fns|
    requires EvalAll(fuel, m, {}, map[], m.fns[i].defaults).Some?
    ensures EvalAll(fuel, m, {}, map[], m.fns[i].defaults).value.value == m.defaults[i]
  {
    var load: nat :| LoadsWith(m, load);
    var es := m.fns[i].defaults;
    var vs := EvalAll(fuel, m, {}, map[], es).value.value;
    forall j | 0 <= j < |es|
      ensures vs[j] == m.defaults[i][j]
    {
      var r := Eval(load, Prefix(m, i), {}, map[], es[j]);
      EvalExtends(load, load, Prefix(m, i), m, {}, map[], es[j]);
      ElementAt(fuel, m, {}, map[], es, j);
      EvalUnique(load, fuel, m, {}, map[], es[j]);
    }
  }

  lemma {:induction false} ElementAt(fuel: nat, m: Module, locals: set<Ident>, env: Env, es: seq<Expr>, j: nat)
    requires j < |es| && EvalAll(fuel, m, locals, env, es).Some?
    ensures Eval(fuel, m, locals, env, es[j]).Some?
    ensures EvalAll(fuel, m, locals, env, es).value.value[j] == Eval(fuel, m, locals, env, es[j]).value.value
  {
    if j > 0 {
      ElementAt(fuel, m, locals, env, es[1..], j - 1);
    }
  }

  lemma {:induction false} ZipAt(names: seq<Ident>, values: seq<PyValue>, i: nat)
    requires |names| <= |values| && Distinct(names) && i < |names|
    ensures names[i] in Zip(names, values) && Zip(names, values)[names[i]] == values[i]
  {
    var n := |names| - 1;
    if i < n {
      ZipAt(names[..n], values, i);
    }
  }

  lemma {:induction false} ZipKeys(names: seq<Ident>, values: seq<PyValue>)
    requires |names| <= |values|
    ensures Zip(names, values).Keys == (set p | p in names)
  {
    if names != [] {
      var n := |names| - 1;
      ZipKeys(names[..n], values);
      assert names == names[..n] + [names[n]];
    }
  }

  lemma PrefixAt(names: seq<Ident>, n: nat, values: seq<PyValue>, i: nat)
    requires Distinct(names) && n <= |names| && n <= |values| && i < |names|
    ensures i < n ==> names[i] in Zip(names[..n], values) && Zip(names[..n], values)[names[i]] == values[i]
    ensures n <= i ==> names[i] !in Zip(names[..n], values)
  {
    if i < n {
      assert names[..n][i] == names[i];
      ZipAt(names[..n], values, i);
    } else {
      ZipKeys(names[..n], values);
    }
  }

  lemma SuffixAt(names: seq<Ident>, k: nat, values: seq<PyValue>, i: nat)
    requires Distinct(names) && k <= |names| && |names| - k <= |values| && i < |names|
    requires names[i] in Zip(names[k..], values)
    ensures k <= i && Zip(names[k..], values)[names[i]] == values[i - k]
  {
    var rest := names[k..];
    ZipKeys(rest, values);
    var d :| 0 <= d < |rest| && rest[d] == names[i];
    assert names[k + d] == names[i];
    ZipAt(rest, values, d);
  }

  lemma ParameterAgrees(f: Fn, ds: seq<PyValue>, args: seq<PyValue>, kwargs: map<Ident, PyValue>, i: nat)
    requires |args| <= |f.params| && |ds| == |f.defaults| <= |f.params| && Distinct(f.params) && i < |f.params|
    requires i < |args| ==> f.params[i] !in kwargs
    requires f.params[i] in Gathered(f, ds, args, kwargs)
    ensures Binds1(f, i, args, kwargs)
    ensures Gathered(f, ds, args, kwargs)[f.params[i]]
            == if i < |args| then args[i]
               else if f.params[i] in kwargs then kwargs[f.params[i]]
               else ds[i - (|f.params| - |ds|)]
  {
    PrefixAt(f.params, |args|, args, i);
    if |args| <= i && f.params[i] !in kwargs {
      SuffixAt(f.params, |f.params| - |ds|, ds, i);
    }
  }

  lemma BoundIs(f: Fn, ds: seq<PyValue>, args: seq<PyValue>, kwargs: map<Ident, PyValue>, env: Env)
    requires |args| <= |f.params| && |ds| == |f.defaults| <= |f.params| && Distinct(f.params)
    requires kwargs.Keys <= (set p | p in f.params) == env.Keys
    requires forall i :: 0 <= i < |f.params| ==> Binds1(f, i, args, kwargs)
    requires forall p :: p in f.params ==> Argument(f, ds, args, kwargs, p) == env[p]
    ensures Bound(f, ds, args, kwargs) == Some(env)
  {
    assert Bindings(f, ds, args, kwargs) == env;
  }

  lemma EveryParameterBound(f: Fn, ds: seq<PyValue>, args: seq<PyValue>, kwargs: map<Ident, PyValue>, env: Env)
    requires |args| <= |f.params| && |ds| == |f.defaults| <= |f.params| && Distinct(f.params)
    requires env.Keys == (set p | p in f.params) && env == Gathered(f, ds, args, kwargs)
    requires forall i :: 0 <= i < |args| ==> f.params[i] !in kwargs
    ensures forall i :: 0 <= i < |f.params| ==> Binds1(f, i, args, kwargs)
  {
    forall i | 0 <= i < |f.params|
      ensures Binds1(f, i, args, kwargs)
    {
      assert f.params[i] in env.Keys;
      ParameterAgrees(f, ds, args, kwargs, i);
    }
  }

  /** The bindings projection builds from defaults, arguments and keywords, when they cover the
      parameters, are the ones Python builds. */
  lemma BindingAgrees(f: Fn, ds: seq<PyValue>, args: seq<PyValue>, kwargs: map<Ident, PyValue>, env: Env)
    requires |args| <= |f.params| && |ds| == |f.defaults| <= |f.params| && Distinct(f.params)
    requires kwargs.Keys <= (set p | p in f.params) == env.Keys
    requires forall i :: 0 <= i < |args| ==> f.params[i] !in kwargs
    requires env == Gathered(f, ds, args, kwargs)
    ensures Bound(f, ds, args, kwargs) == Some(env)
  {
    EveryParameterBound(f, ds, args, kwargs, env);
    forall p | p in f.params
      ensures p in env && Argument(f, ds, args, kwargs, p) == env[p]
    {
      NamedAgrees(f, ds, args, kwargs, env, p);
    }
    BoundIs(f, ds, args, kwargs, env);
  }

  lemma NamedAgrees(f: Fn, ds: seq<PyValue>, args: seq<PyValue>, kwargs: map<Ident, PyValue>, env: Env, p: Ident)
    requires |args| <= |f.params| && |ds| == |f.defaults| <= |f.params| && Distinct(f.params)
    requires kwargs.Keys <= (set q | q in f.params) == env.Keys && p in f.params
    requires forall i :: 0 <= i < |args| ==> f.params[i] !in kwargs
    requires forall i :: 0 <= i < |f.params| ==> Binds1(f, i, args, kwargs)
    requires env == Gathered(f, ds, args, kwargs)
    ensures p in env && Argument(f, ds, args, kwargs, p) == env[p]
  {
    assert p in env.Keys;
    ParameterAgrees(f, ds, args, kwargs, Position(f.params, p));
  }

  lemma NoKeywordForPositional(f: Fn, args: nat, kwargs: set<Ident>)
    requires Callable(f, args, kwargs)
    ensures forall i :: 0 <= i < args ==> f.params[i] !in kwargs
  {
    assert forall i :: 0 <= i < args ==> f.params[..args][i] == f.params[i] && f.params[i] in f.params[..args];
  }

  lemma ScopeOfCall(fns: seq<Fn>, f: Fn, args: nat, kwargs: set<Ident>, env: Env)
    requires NoneShadows(fns) && TrustedFn(fns, f) && Callable(f, args, kwargs) && env.Keys == (set p | p in f.params)
    ensures Scope(fns, Locals(f), env)
  {}

  lemma ApplyOfRun(fuel: nat, m: Module, i: nat, args: seq<PyValue>, kwargs: map<Ident, PyValue>)
    requires i < |m.fns| && m.fns[i].plain && m.fns[i].kind.Ordinary?
             && Bound(m.fns[i], m.defaults[i], args, kwargs).Some?
    requires var f := m.fns[i];
             var r := Run(fuel, m, Locals(f), f.name, Bound(f, m.defaults[i], args, kwargs).value, f.body);
             r.Some? && r.value.value.returned.Some?
    ensures var f := m.fns[i];
            var r := Run(fuel, m, Locals(f), f.name, Bound(f, m.defaults[i], args, kwargs).value, f.body).value;
            Apply(fuel, m, i, args, kwargs) == Some(Done(r.value.returned.value, r.trace))
  {}

  lemma {:induction false} SoundCalled(l: Limits, m: Script, name: Ident, args: seq<PyValue>,
                                       kwargs: map<Ident, PyValue>, depth: nat, st: State)
    returns (r: Done<PyValue>)
    requires Called(l, m.fns, name, args, kwargs, depth, st).Ok?
    ensures depth <= l.depth && Find(m.fns, name).Some?
    ensures Apply(l.depth - depth, m, Find(m.fns, name).value, args, kwargs) == Some(r)
    ensures var ok := Called(l, m.fns, name, args, kwargs, depth, st);
            r.value == ok.value && Records(m.fns, r.trace, st, ok.st)
    decreases Room(l, depth), 3
  {
    var i := Find(m.fns, name).value;
    var ds := Values(l, m.fns, m.fns[i].defaults, map[], depth, st);
    var env := Gathered(m.fns[i], ds.value, args, kwargs);
    SoundDefaults(l, m, i, depth, st);
    Entered(m, i, args, kwargs, env);
    SoundBody(l, m, i, args, kwargs, depth, ds.st, env);
    r := Apply(l.depth - depth, m, i, args, kwargs).value;
    RecordsThen(m.fns, [], r.trace, st, ds.st, Called(l, m.fns, name, args, kwargs, depth, st).st);
    assert [] + r.trace == r.trace;
  }

  lemma Entered(m: Script, i: nat, args: seq<PyValue>, kwargs: map<Ident, PyValue>, env: Env)
    requires i < |m.fns| && Callable(m.fns[i], |args|, kwargs.Keys)
    requires env == Gathered(m.fns[i], m.defaults[i], args, kwargs) && env.Keys == (set p | p in m.fns[i].params)
    ensures Bound(m.fns[i], m.defaults[i], args, kwargs) == Some(env) && Scope(m.fns, Locals(m.fns[i]), env)
    ensures m.fns[i].plain && m.fns[i].kind.Ordinary? && FairBody(m.fns[i].body)
  {
    var f := m.fns[i];
    TrustedAt(m.fns, |m.fns|, i);
    NoKeywordForPositional(f, |args|, kwargs.Keys);
    BindingAgrees(f, m.defaults[i], args, kwargs, env);
    ScopeOfCall(m.fns, f, |args|, kwargs.Keys, env);
  }

  lemma {:induction false} SoundBody(l: Limits, m: Script, i: nat, args: seq<PyValue>, kwargs: map<Ident, PyValue>,
                                     depth: nat, st: State, env: Env)
    requires i < |m.fns| && depth <= l.depth && m.fns[i].plain && m.fns[i].kind.Ordinary? && FairBody(m.fns[i].body)
    requires Bound(m.fns[i], m.defaults[i], args, kwargs) == Some(env) && Scope(m.fns, Locals(m.fns[i]), env)
    requires var exit := Block(l, m.fns, m.fns[i].name, m.fns[i].body, env, depth, st);
             exit.Ok? && exit.value.returned.Some?
    ensures var r := Apply(l.depth - depth, m, i, args, kwargs);
            var exit := Block(l, m.fns, m.fns[i].name, m.fns[i].body, env, depth, st);
            r.Some? && r.value.value == exit.value.returned.value && Records(m.fns, r.value.trace, st, exit.st)
    decreases Room(l, depth), 2
  {
    var f := m.fns[i];
    SoundBlock(l, m, Locals(f), f.name, f.body, env, depth, st);
    ApplyOfRun(l.depth - depth, m, i, args, kwargs);
  }

  lemma {:induction false} SoundDefaults(l: Limits, m: Script, i: nat, depth: nat, st: State)
    requires i < |m.fns| && depth <= l.depth
    requires Values(l, m.fns, m.fns[i].defaults, map[], depth, st).Ok?
    ensures var ok := Values(l, m.fns, m.fns[i].defaults, map[], depth, st);
            ok.value == m.defaults[i] && Records(m.fns, [], st, ok.st)
    decreases Room(l, depth), 1
  {
    var es := m.fns[i].defaults;
    var fuel := l.depth - depth;
    TrustedAt(m.fns, |m.fns|, i);
    SoundValues(l, m, {}, es, map[], depth, st);
    DefaultsKeepTheirValue(m, fuel, i);
    if PlainDefaults(m.fns) {
      PlainAt(m.fns, |m.fns|, i);
      AllIsSilent(fuel, m, {}, map[], es);
    }
  }

  lemma {:induction false} SoundBlock(l: Limits, m: Script, locals: set<Ident>, name: Ident, body: seq<Stmt>, env: Env,
                                      depth: nat, st: State)
    requires Scope(m.fns, locals, env) && FairBody(body) && depth <= l.depth
    requires Block(l, m.fns, name, body, env, depth, st).Ok?
    ensures var r, ok := Run(l.depth - depth, m, locals, name, env, body), Block(l, m.fns, name, body, env, depth, st);
            r.Some? && r.value.value == ok.value && Records(m.fns, r.value.trace, st, ok.st)
    decreases Room(l, depth), 1, body
  {
    if body == [] {
      RecordsNothing(m.fns, st, st);
    } else {
      var fuel := l.depth - depth;
      var here := Stepped(st).(visited := st.visited + {body[0].line});
      var ran := [Ran(body[0].line)];
      assert Records(m.fns, ran, st, here) by {
        OneEvent(ran[0]);
      }
      match body[0] {
        case Return(_, Some(e)) =>
          SoundValue(l, m, locals, e, env, depth, here);
          RecordsThen(m.fns, ran, Eval(fuel, m, locals, env, e).value.trace, st, here,
                      Value(l, m.fns, e, env, depth, here).st);
        case Assign(_, _, _) => SoundAssign(l, m, locals, name, body, env, depth, st, here);
        case If(_, _, _, _) => SoundIf(l, m, locals, name, body, env, depth, st, here);
        case DocString(_) =>
          SoundBlock(l, m, locals, name, body[1..], env, depth, here);
          RecordsThen(m.fns, ran, Run(fuel, m, locals, name, env, body[1..]).value.trace, st, here,
                      Block(l, m.fns, name, body[1..], env, depth, here).st);
        case _ =>
      }
    }
  }

  lemma {:induction false} SoundAssign(l: Limits, m: Script, locals: set<Ident>, name: Ident, body: seq<Stmt>, env: Env,
                                       depth: nat, st: State, here: State)
    requires Scope(m.fns, locals, env) && FairBody(body) && depth <= l.depth
    requires body != [] && body[0].Assign? && here == Stepped(st).(visited := st.visited + {body[0].line})
    requires Records(m.fns, [Ran(body[0].line)], st, here)
    requires Block(l, m.fns, name, body, env, depth, st).Ok?
    ensures var r, ok := Run(l.depth - depth, m, locals, name, env, body), Block(l, m.fns, name, body, env, depth, st);
            r.Some? && r.value.value == ok.value && Records(m.fns, r.value.trace, st, ok.st)
    decreases Room(l, depth), 1, body, 1
  {
    var Assign(line, id, e) := body[0];
    SoundValue(l, m, locals, e, env, depth, here);
    var v := Value(l, m.fns, e, env, depth, here);
    var t := Eval(l.depth - depth, m, locals, env, e).value.trace;
    SoundBlock(l, m, locals, name, body[1..], env[id := v.value], depth, v.st);
    RecordsThree(m.fns, [Ran(line)], t,
                 Run(l.depth - depth, m, locals, name, env[id := v.value], body[1..]).value.trace, st, here, v.st,
                 Block(l, m.fns, name, body[1..], env[id := v.value], depth, v.st).st);
  }

  lemma {:induction false} SoundIf(l: Limits, m: Script, locals: set<Ident>, name: Ident, body: seq<Stmt>, env: Env,
                                   depth: nat, st: State, here: State)
    requires Scope(m.fns, locals, env) && FairBody(body) && depth <= l.depth
    requires body != [] && body[0].If? && here == Stepped(st).(visited := st.visited + {body[0].line})
    requires Records(m.fns, [Ran(body[0].line)], st, here)
    requires Block(l, m.fns, name, body, env, depth, st).Ok?
    ensures var r, ok := Run(l.depth - depth, m, locals, name, env, body), Block(l, m.fns, name, body, env, depth, st);
            r.Some? && r.value.value == ok.value && Records(m.fns, r.value.trace, st, ok.st)
    decreases Room(l, depth), 1, body, 1
  {
    var If(line, test, yes, no) := body[0];
    SoundValue(l, m, locals, test, env, depth, here);
    var v := Value(l, m.fns, test, env, depth, here);
    var t := Eval(l.depth - depth, m, locals, env, test).value.trace;
    var after := v.st.(branches := v.st.branches + [Branch(name, line, Truthy(v.value))]);
    RecordsThen(m.fns, [Ran(line)], t, st, here, v.st);
    RecordsBranch(m.fns, [Ran(line)] + t, st, v.st, name, line, Truthy(v.value));
    SoundRest(l, m, locals, name, body, if Truthy(v.value) then yes else no, env, depth, st, after,
              [Ran(line)] + t + [Branched(name, line, Truthy(v.value))]);
  }

  lemma RecordsBranch(fns: seq<Fn>, t: seq<Event>, a: State, b: State, name: Ident, line: nat, taken: bool)
    requires Records(fns, t, a, b)
    ensures Records(fns, t + [Branched(name, line, taken)], a, b.(branches := b.branches + [Branch(name, line, taken)]))
  {
    var one := [Branched(name, line, taken)];
    OneEvent(one[0]);
    RecordsThen(fns, t, one, a, b, b.(branches := b.branches + [Branch(name, line, taken)]));
  }

  /** After the test of an `if`: the branch taken, and the rest of the block unless it returned. */
  lemma {:induction false} SoundRest(l: Limits, m: Script, locals: set<Ident>, name: Ident, body: seq<Stmt>,
                                     part: seq<Stmt>, env: Env, depth: nat, st: State, after: State, head: seq<Event>)
    requires Scope(m.fns, locals, env) && FairBody(body) && FairBody(part) && depth <= l.depth
    requires body != [] && body[0].If? && (part == body[0].body || part == body[0].orelse)
    requires Records(m.fns, head, st, after) && Block(l, m.fns, name, part, env, depth, after).Ok?
    ensures var r := Run(l.depth - depth, m, locals, name, env, part);
            var ok := Block(l, m.fns, name, part, env, depth, after);
            r.Some? && r.value.value == ok.value && Records(m.fns, head + r.value.trace, st, ok.st)
    ensures var exit := Block(l, m.fns, name, part, env, depth, after);
            exit.value.returned.None? && Block(l, m.fns, name, body[1..], exit.value.env, depth, exit.st).Ok? ==>
              var u := Run(l.depth - depth, m, locals, name, env, part).value.trace;
              var r := Run(l.depth - depth, m, locals, name, exit.value.env, body[1..]);
              var ok := Block(l, m.fns, name, body[1..], exit.value.env, depth, exit.st);
              r.Some? && r.value.value == ok.value && Records(m.fns, head + u + r.value.trace, st, ok.st)
    decreases Room(l, depth), 1, body, 0
  {
    SoundBlock(l, m, locals, name, part, env, depth, after);
    var exit := Block(l, m.fns, name, part, env, depth, after);
    var u := Run(l.depth - depth, m, locals, name, env, part).value.trace;
    RecordsThen(m.fns, head, u, st, after, exit.st);
    if exit.value.returned.None? && Block(l, m.fns, name, body[1..], exit.value.env, depth, exit.st).Ok? {
      ScopeStays(l, m.fns, name, part, env, depth, after);
      SoundBlock(l, m, locals, name, body[1..], exit.value.env, depth, exit.st);
      RecordsThen(m.fns, head + u,
                  Run(l.depth - depth, m, locals, name, exit.value.env, body[1..]).value.trace, st, exit.st,
                  Block(l, m.fns, name, body[1..], exit.value.env, depth, exit.st).st);
    }
  }

  /** A block only adds bindings. */
  lemma {:induction false} ScopeStays(l: Limits, fns: seq<Fn>, name: Ident, body: seq<Stmt>, env: Env, depth: nat,
                                      st: State)
    requires Block(l, fns, name, body, env, depth, st).Ok?
    ensures env.Keys <= Block(l, fns, name, body, env, depth, st).value.env.Keys
    decreases body
  {
    if body != [] {
      var here := Stepped(st).(visited := st.visited + {body[0].line});
      match body[0] {
        case Assign(_, id, e) =>
          var v := Value(l, fns, e, env, depth, here);
          ScopeStays(l, fns, name, body[1..], env[id := v.value], depth, v.st);
        case If(line, test, yes, no) =>
          var v := Value(l, fns, test, env, depth, here);
          var after := v.st.(branches := v.st.branches + [Branch(name, line, Truthy(v.value))]);
          var part := if Truthy(v.value) then yes else no;
          ScopeStays(l, fns, name, part, env, depth, after);
          var exit := Block(l, fns, name, part, env, depth, after);
          if exit.value.returned.None? {
            ScopeStays(l, fns, name, body[1..], exit.value.env, depth, exit.st);
          }
        case DocString(_) => ScopeStays(l, fns, name, body[1..], env, depth, here);
        case _ =>
      }
    }
  }
}
