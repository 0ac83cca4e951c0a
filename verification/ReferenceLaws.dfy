/** Laws of the reference semantics: a value once there is there with more fuel and with more
    functions defined after it, so a program has at most one value; and an expression that calls no
    function of the file executes no statement. */
module ReferenceLaws {
  import opened Options
  import opened PythonSubset

  /** `b` is the module `a` with further definitions, none of them named like a builtin. */
  ghost predicate Extends(a: Module, b: Module) {
    && a.fns <= b.fns && a.defaults <= b.defaults
    && WellFormed(b.fns) && NoneShadows(b.fns)
  }

  lemma {:induction false} FindUnique(fns: seq<Fn>, i: nat)
    requires WellFormed(fns) && i < |fns|
    ensures Find(fns, fns[i].name) == Some(i)
  {
    var n := |fns| - 1;
    if i < n {
      assert forall f <- fns[..n] :: f in fns;
      FindUnique(fns[..n], i);
    }
  }

  lemma FindExtends(a: Module, b: Module, name: Ident)
    requires Extends(a, b)
    ensures Find(a.fns, name).Some? ==> Find(b.fns, name) == Find(a.fns, name)
    ensures IsBuiltin(name) ==> Find(b.fns, name).None?
  {
    if Find(a.fns, name).Some? {
      var i := Find(a.fns, name).value;
      assert b.fns[i] == a.fns[i];
      FindUnique(b.fns, i);
    }
  }

  lemma {:induction false} EvalExtends(n: nat, k: nat, a: Module, b: Module, locals: set<Ident>, env: Env, e: Expr)
    requires Extends(a, b) && n <= k && Eval(n, a, locals, env, e).Some?
    ensures Eval(k, b, locals, env, e) == Eval(n, a, locals, env, e)
    decreases n, 0, e, 1
  {
    match e {
      case Neg(x) => EvalExtends(n, k, a, b, locals, env, x);
      case Junct(j, es) => JunctExtends(n, k, a, b, locals, env, j, es);
      case Arith(_, x, y) => EvalExtends(n, k, a, b, locals, env, x); EvalExtends(n, k, a, b, locals, env, y);
      case Compare(_, x, y) => EvalExtends(n, k, a, b, locals, env, x); EvalExtends(n, k, a, b, locals, env, y);
      case DictDisplay(es) => AllExtends(n, k, a, b, locals, env, es);
      case ListDisplay(es) => AllExtends(n, k, a, b, locals, env, es);
      case Method(x, _, es, _) => EvalExtends(n, k, a, b, locals, env, x); AllExtends(n, k, a, b, locals, env, es);
      case Call(_, args, _, keyValues) =>
        AllExtends(n, k, a, b, locals, env, args);
        AllExtends(n, k, a, b, locals, env, keyValues);
        FindExtends(a, b, e.name);
        var vs, ks := EvalAll(n, a, locals, env, args).value, EvalAll(n, a, locals, env, keyValues).value;
        if Find(a.fns, e.name).None? {
          BuiltinCallExtends(n, k, a, b, locals, env, e, vs, ks);
        } else {
          CallExtends(n, k, a, b, locals, env, e, Find(a.fns, e.name).value, vs, ks, Keywords(e.keys, ks.value).value);
        }
      case _ =>
    }
  }

  lemma {:induction false} CallExtends(n: nat, k: nat, a: Module, b: Module, locals: set<Ident>, env: Env, e: Expr,
                                       i: nat, vs: Done<seq<PyValue>>, ks: Done<seq<PyValue>>,
                                       kwargs: map<Ident, PyValue>)
    requires Extends(a, b) && n <= k && e.Call? && Find(a.fns, e.name) == Some(i) == Find(b.fns, e.name)
    requires EvalAll(n, a, locals, env, e.args) == Some(vs) == EvalAll(k, b, locals, env, e.args)
    requires EvalAll(n, a, locals, env, e.keyValues) == Some(ks) == EvalAll(k, b, locals, env, e.keyValues)
    requires Keywords(e.keys, ks.value) == Some(kwargs) && Eval(n, a, locals, env, e).Some?
    ensures Eval(k, b, locals, env, e) == Eval(n, a, locals, env, e)
    decreases n, 0, e, 0
  {
    ApplyExtends(n - 1, k - 1, a, b, i, vs.value, kwargs);
    CallIs(n, a, locals, env, e, i, vs, ks, kwargs);
    CallIs(k, b, locals, env, e, i, vs, ks, kwargs);
  }

  lemma BuiltinCallExtends(n: nat, k: nat, a: Module, b: Module, locals: set<Ident>, env: Env, e: Expr,
                           vs: Done<seq<PyValue>>, ks: Done<seq<PyValue>>)
    requires e.Call? && Find(a.fns, e.name).None? && (IsBuiltin(e.name) ==> Find(b.fns, e.name).None?)
    requires EvalAll(n, a, locals, env, e.args) == Some(vs) == EvalAll(k, b, locals, env, e.args)
    requires EvalAll(n, a, locals, env, e.keyValues) == Some(ks) == EvalAll(k, b, locals, env, e.keyValues)
    requires Eval(n, a, locals, env, e).Some?
    ensures Eval(k, b, locals, env, e) == Eval(n, a, locals, env, e)
  {
    OnlyBuiltins(e.name, vs.value);
  }

  /** A call of a function of the file, once its arguments are evaluated. */
  lemma CallIs(n: nat, m: Module, locals: set<Ident>, env: Env, e: Expr, i: nat,
               vs: Done<seq<PyValue>>, ks: Done<seq<PyValue>>, kwargs: map<Ident, PyValue>)
    requires e.Call? && e.name !in locals && Find(m.fns, e.name) == Some(i) && 0 < n
    requires EvalAll(n, m, locals, env, e.args) == Some(vs) && EvalAll(n, m, locals, env, e.keyValues) == Some(ks)
    requires Keywords(e.keys, ks.value) == Some(kwargs) && Apply(n - 1, m, i, vs.value, kwargs).Some?
    ensures var r := Apply(n - 1, m, i, vs.value, kwargs).value;
            Eval(n, m, locals, env, e) == Some(Done(r.value, vs.trace + ks.trace + r.trace))
  {}

  lemma OnlyBuiltins(name: Ident, args: seq<PyValue>)
    requires Builtin(name, args).Some?
    ensures IsBuiltin(name)
  {}

  lemma {:induction false} AllExtends(n: nat, k: nat, a: Module, b: Module, locals: set<Ident>, env: Env, es: seq<Expr>)
    requires Extends(a, b) && n <= k && EvalAll(n, a, locals, env, es).Some?
    ensures EvalAll(k, b, locals, env, es) == EvalAll(n, a, locals, env, es)
    decreases n, 0, es, 0
  {
    if es != [] {
      EvalExtends(n, k, a, b, locals, env, es[0]);
      AllExtends(n, k, a, b, locals, env, es[1..]);
    }
  }

  lemma {:induction false} JunctExtends(n: nat, k: nat, a: Module, b: Module, locals: set<Ident>, env: Env, j: Junction,
                                        es: seq<Expr>)
    requires Extends(a, b) && n <= k && es != [] && EvalJunct(n, a, locals, env, j, es).Some?
    ensures EvalJunct(k, b, locals, env, j, es) == EvalJunct(n, a, locals, env, j, es)
    decreases n, 0, es, 0
  {
    EvalExtends(n, k, a, b, locals, env, es[0]);
    if |es| > 1 && !Decides(j, Eval(n, a, locals, env, es[0]).value.value) {
      JunctExtends(n, k, a, b, locals, env, j, es[1..]);
    }
  }

  lemma {:induction false} ApplyExtends(n: nat, k: nat, a: Module, b: Module, i: nat, args: seq<PyValue>,
                                        kwargs: map<Ident, PyValue>)
    requires Extends(a, b) && n <= k && i < |a.fns| && Apply(n, a, i, args, kwargs).Some?
    ensures Apply(k, b, i, args, kwargs) == Apply(n, a, i, args, kwargs)
    decreases n, 2
  {
    var f := a.fns[i];
    assert b.fns[i] == f && b.defaults[i] == a.defaults[i];
    if f.kind.Ordinary? {
      RunExtends(n, k, a, b, Locals(f), f.name, Bound(f, a.defaults[i], args, kwargs).value, f.body);
    }
  }

  lemma {:induction false} RunExtends(n: nat, k: nat, a: Module, b: Module, locals: set<Ident>, fn: Ident, env: Env,
                                      body: seq<Stmt>)
    requires Extends(a, b) && n <= k && Run(n, a, locals, fn, env, body).Some?
    ensures Run(k, b, locals, fn, env, body) == Run(n, a, locals, fn, env, body)
    decreases n, 1, body
  {
    if body != [] {
      match body[0] {
        case Return(_, Some(e)) => EvalExtends(n, k, a, b, locals, env, e);
        case Assign(_, id, e) =>
          EvalExtends(n, k, a, b, locals, env, e);
          RunExtends(n, k, a, b, locals, fn, env[id := Eval(n, a, locals, env, e).value.value], body[1..]);
        case If(_, e, yes, no) =>
          EvalExtends(n, k, a, b, locals, env, e);
          var part := if Truthy(Eval(n, a, locals, env, e).value.value) then yes else no;
          RunExtends(n, k, a, b, locals, fn, env, part);
          var exit := Run(n, a, locals, fn, env, part).value.value;
          if exit.returned.None? {
            RunExtends(n, k, a, b, locals, fn, exit.env, body[1..]);
          }
        case DocString(_) => RunExtends(n, k, a, b, locals, fn, env, body[1..]);
        case _ =>
      }
    }
  }

  /** A program has at most one value, whatever fuel it is found with. */
  lemma EvalUnique(n: nat, k: nat, m: Module, locals: set<Ident>, env: Env, e: Expr)
    requires Extends(m, m) && Eval(n, m, locals, env, e).Some? && Eval(k, m, locals, env, e).Some?
    ensures Eval(n, m, locals, env, e) == Eval(k, m, locals, env, e)
  {
    if n <= k {
      EvalExtends(n, k, m, m, locals, env, e);
    } else {
      EvalExtends(k, n, m, m, locals, env, e);
    }
  }

  // ---- Expressions that execute no statement ----

  ghost predicate CallFree(fns: seq<Fn>, e: Expr)
    decreases e, 1
  {
    match e
    case Constant(_) => true
    case Name(_) => true
    case Neg(a) => CallFree(fns, a)
    case Junct(_, es) => AllCallFree(fns, es)
    case Arith(_, a, b) => CallFree(fns, a) && CallFree(fns, b)
    case Compare(_, a, b) => CallFree(fns, a) && CallFree(fns, b)
    case DictDisplay(es) => AllCallFree(fns, es)
    case ListDisplay(es) => AllCallFree(fns, es)
    case Method(a, _, es, _) => CallFree(fns, a) && AllCallFree(fns, es)
    case Call(name, args, _, kvs) => Find(fns, name).None? && AllCallFree(fns, args) && AllCallFree(fns, kvs)
    case Other(_, _) => true
  }

  ghost predicate AllCallFree(fns: seq<Fn>, es: seq<Expr>)
    decreases es, 0
  {
    es == [] || (CallFree(fns, es[0]) && AllCallFree(fns, es[1..]))
  }

  lemma {:induction false} CallFreeIsSilent(n: nat, m: Module, locals: set<Ident>, env: Env, e: Expr)
    requires CallFree(m.fns, e) && Eval(n, m, locals, env, e).Some?
    ensures Eval(n, m, locals, env, e).value.trace == []
    decreases e, 1
  {
    match e {
      case Neg(x) => CallFreeIsSilent(n, m, locals, env, x);
      case Junct(j, es) => JunctIsSilent(n, m, locals, env, j, es);
      case Arith(_, x, y) => CallFreeIsSilent(n, m, locals, env, x); CallFreeIsSilent(n, m, locals, env, y);
      case Compare(_, x, y) => CallFreeIsSilent(n, m, locals, env, x); CallFreeIsSilent(n, m, locals, env, y);
      case DictDisplay(es) => AllIsSilent(n, m, locals, env, es);
      case ListDisplay(es) => AllIsSilent(n, m, locals, env, es);
      case Method(x, _, es, _) => CallFreeIsSilent(n, m, locals, env, x); AllIsSilent(n, m, locals, env, es);
      case Call(_, es, _, kvs) => AllIsSilent(n, m, locals, env, es); AllIsSilent(n, m, locals, env, kvs);
      case _ =>
    }
  }

  lemma {:induction false} AllIsSilent(n: nat, m: Module, locals: set<Ident>, env: Env, es: seq<Expr>)
    requires AllCallFree(m.fns, es) && EvalAll(n, m, locals, env, es).Some?
    ensures EvalAll(n, m, locals, env, es).value.trace == []
    decreases es, 0
  {
    if es != [] {
      CallFreeIsSilent(n, m, locals, env, es[0]);
      AllIsSilent(n, m, locals, env, es[1..]);
    }
  }

  lemma {:induction false} JunctIsSilent(n: nat, m: Module, locals: set<Ident>, env: Env, j: Junction, es: seq<Expr>)
    requires AllCallFree(m.fns, es) && es != [] && EvalJunct(n, m, locals, env, j, es).Some?
    ensures EvalJunct(n, m, locals, env, j, es).value.trace == []
    decreases es, 0
  {
    CallFreeIsSilent(n, m, locals, env, es[0]);
    if |es| > 1 && !Decides(j, Eval(n, m, locals, env, es[0]).value.value) {
      JunctIsSilent(n, m, locals, env, j, es[1..]);
    }
  }
}
