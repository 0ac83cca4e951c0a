/** Assertion observations (`python_observations` in app/domain/review/path_observations.py): what is
    reported about `assert f(...) == literal`, against what Python makes of that assertion. */
module Observations {
  import opened Options
  import opened PythonSubset
  import opened Projecting
  import opened ReferenceLaws
  import opened Soundness
  import E = Evaluator

  datatype Observation = Observation(line: nat, fn: Ident, args: seq<PyValue>, kwargs: map<Ident, PyValue>,
                                     value: PyValue, asserted: PyValue, matches: bool,
                                     branches: seq<Branch>, visited: set<nat>)

  /** No calls, names or attributes: no test body is executed to get arguments. */
  predicate Literal(e: Expr)
    decreases e, 1
  {
    match e
    case Constant(_) => true
    case Neg(a) => Literal(a)
    case Junct(_, es) => es != [] && AllLiteral(es)
    case Arith(_, a, b) => Literal(a) && Literal(b)
    case Compare(_, a, b) => Literal(a) && Literal(b)
    case DictDisplay(es) => AllLiteral(es)
    case ListDisplay(es) => AllLiteral(es)
    case Other(_, literal) => literal
    case _ => false
  }

  predicate AllLiteral(es: seq<Expr>)
    decreases es, 0
  {
    es == [] || (Literal(es[0]) && AllLiteral(es[1..]))
  }

  /** `assert f(literals) == literal`, or `is`. */
  predicate Observable(test: Expr) {
    && test.Compare? && (test.cmp.Eq? || test.cmp.Is?) && test.first.Call?
    && |test.first.keys| == |test.first.keyValues|
    && AllLiteral(test.first.args) && AllLiteral(test.first.keyValues) && Literal(test.second)
    && None !in test.first.keys
  }

  function Observe(l: Limits, fns: seq<Fn>, line: nat, test: Expr): Option<Observation> {
    if !Observable(test) then None
    else
      var call := test.first;
      match Values(l, fns, call.args, map[], 0, START)
      case Unsupported => None
      case Ok(args, st1) =>
        match Values(l, fns, call.keyValues, map[], 0, st1)
        case Unsupported => None
        case Ok(given, st2) =>
          match (Keywords(call.keys, given), Value(l, fns, test.second, map[], 0, st2))
          case (Some(kwargs), Ok(asserted, st3)) =>
            if |kwargs| != |call.keys| then None
            else (match Called(l, fns, call.name, args, kwargs, 1, st3)
             case Unsupported => None
             case Ok(value, st) =>
               match Compared(test.cmp, value, asserted)
               case None => None
               case Some(same) => Some(Observation(line, call.name, args, kwargs, value, asserted, same, st.branches,
                                                   st.visited)))
          case _ => None
  }

  method ObserveAssertion(fns: seq<Fn>, line: nat, test: Expr) returns (o: Option<Observation>)
    ensures o == Observe(LIMITS, fns, line, test)
  {
    if !Observable(test) {
      return None;
    }
    var call := test.first;
    var projection := new E.Projection(fns);
    var args := projection.Values(call.args, map[], 0);
    if args.None? {
      return None;
    }
    var given := projection.Values(call.keyValues, map[], 0);
    if given.None? {
      return None;
    }
    var kwargs := Keywords(call.keys, given.value);
    var asserted := projection.Value(test.second, map[], 0);
    if kwargs.None? || |kwargs.value| != |call.keys| || asserted.None? {
      return None;
    }
    var value := projection.Call(call.name, args.value, kwargs.value, 1);
    if value.None? {
      return None;
    }
    var same := Compared(test.cmp, value.value, asserted.value);
    if same.None? {
      return None;
    }
    return Some(Observation(line, call.name, args.value, kwargs.value, value.value, asserted.value, same.value,
                            projection.branches, projection.visited));
  }

  // ---- An observation is Python's verdict ----

  lemma {:induction false} LiteralIsHarmless(fns: seq<Fn>, e: Expr)
    requires Literal(e)
    ensures Fair(e) && CallFree(fns, e)
    decreases e, 1
  {
    match e {
      case Neg(a) => LiteralIsHarmless(fns, a);
      case Junct(_, es) => LiteralsAreHarmless(fns, es);
      case Arith(_, a, b) => LiteralIsHarmless(fns, a); LiteralIsHarmless(fns, b);
      case Compare(_, a, b) => LiteralIsHarmless(fns, a); LiteralIsHarmless(fns, b);
      case DictDisplay(es) => LiteralsAreHarmless(fns, es);
      case ListDisplay(es) => LiteralsAreHarmless(fns, es);
      case _ =>
    }
  }

  lemma {:induction false} LiteralsAreHarmless(fns: seq<Fn>, es: seq<Expr>)
    requires AllLiteral(es)
    ensures AllFair(es) && AllCallFree(fns, es)
    decreases es, 0
  {
    if es != [] {
      LiteralIsHarmless(fns, es[0]);
      LiteralsAreHarmless(fns, es[1..]);
    }
  }

  /** A literal means the same in every scope. */
  lemma {:induction false} LiteralAnywhere(n: nat, m: Module, scope: set<Ident>, env: Env, e: Expr)
    requires Literal(e)
    ensures Eval(n, m, scope, env, e) == Eval(n, m, {}, map[], e)
    decreases e, 1
  {
    match e {
      case Neg(a) => LiteralAnywhere(n, m, scope, env, a);
      case Junct(j, es) => JunctAnywhere(n, m, scope, env, j, es);
      case Arith(_, a, b) => LiteralAnywhere(n, m, scope, env, a); LiteralAnywhere(n, m, scope, env, b);
      case Compare(_, a, b) => LiteralAnywhere(n, m, scope, env, a); LiteralAnywhere(n, m, scope, env, b);
      case DictDisplay(es) => LiteralsAnywhere(n, m, scope, env, es);
      case ListDisplay(es) => LiteralsAnywhere(n, m, scope, env, es);
      case _ =>
    }
  }

  lemma {:induction false} LiteralsAnywhere(n: nat, m: Module, scope: set<Ident>, env: Env, es: seq<Expr>)
    requires AllLiteral(es)
    ensures EvalAll(n, m, scope, env, es) == EvalAll(n, m, {}, map[], es)
    decreases es, 0
  {
    if es != [] {
      LiteralAnywhere(n, m, scope, env, es[0]);
      LiteralsAnywhere(n, m, scope, env, es[1..]);
    }
  }

  lemma {:induction false} JunctAnywhere(n: nat, m: Module, scope: set<Ident>, env: Env, j: Junction, es: seq<Expr>)
    requires AllLiteral(es) && es != []
    ensures EvalJunct(n, m, scope, env, j, es) == EvalJunct(n, m, {}, map[], j, es)
    decreases es, 0
  {
    LiteralAnywhere(n, m, scope, env, es[0]);
    if |es| > 1 {
      JunctAnywhere(n, m, scope, env, j, es[1..]);
    }
  }

  lemma LiteralsEvaluate(l: Limits, m: Script, scope: set<Ident>, env: Env, es: seq<Expr>, st: State)
    requires AllLiteral(es) && Values(l, m.fns, es, map[], 0, st).Ok?
    ensures var ok := Values(l, m.fns, es, map[], 0, st);
            EvalAll(l.depth, m, scope, env, es) == Some(Done(ok.value, [])) && Records(m.fns, [], st, ok.st)
  {
    LiteralsAreHarmless(m.fns, es);
    LiteralsAnywhere(l.depth, m, scope, env, es);
    SoundValues(l, m, {}, es, map[], 0, st);
    AllIsSilent(l.depth, m, {}, map[], es);
  }

  lemma LiteralEvaluates(l: Limits, m: Script, scope: set<Ident>, env: Env, e: Expr, st: State)
    requires Literal(e) && Value(l, m.fns, e, map[], 0, st).Ok?
    ensures var ok := Value(l, m.fns, e, map[], 0, st);
            Eval(l.depth, m, scope, env, e) == Some(Done(ok.value, [])) && Records(m.fns, [], st, ok.st)
  {
    LiteralIsHarmless(m.fns, e);
    LiteralAnywhere(l.depth, m, scope, env, e);
    SoundValue(l, m, {}, e, map[], 0, st);
    CallFreeIsSilent(l.depth, m, {}, map[], e);
  }

  lemma RecordsSkip(fns: seq<Fn>, t: seq<Event>, a: State, b: State, c: State)
    requires Records(fns, [], a, b) && Records(fns, t, b, c)
    ensures Records(fns, t, a, c)
  {
    RecordsThen(fns, [], t, a, b, c);
    assert [] + t == t;
  }

  /** The observed call has the observed value, where the called name means the module's. */
  lemma CallAsObserved(l: Limits, m: Script, scope: set<Ident>, env: Env, call: Expr, kwargs: map<Ident, PyValue>,
                       i: nat, fuel: nat, args: Ret<seq<PyValue>>, given: Ret<seq<PyValue>>, before: State,
                       called: Ret<PyValue>)
    returns (v: Done<PyValue>)
    requires call.Call? && AllLiteral(call.args) && AllLiteral(call.keyValues) && call.name !in scope
    requires l.depth == fuel + 1 && Find(m.fns, call.name) == Some(i)
    requires args == Values(l, m.fns, call.args, map[], 0, START) && args.Ok?
    requires given == Values(l, m.fns, call.keyValues, map[], 0, args.st) && given.Ok?
    requires Records(m.fns, [], given.st, before) && Keywords(call.keys, given.value) == Some(kwargs)
    requires called == Called(l, m.fns, call.name, args.value, kwargs, 1, before) && called.Ok?
    ensures Eval(l.depth, m, scope, env, call) == Some(v)
    ensures v.value == called.value && Records(m.fns, v.trace, START, called.st)
  {
    LiteralsEvaluate(l, m, scope, env, call.args, START);
    LiteralsEvaluate(l, m, scope, env, call.keyValues, args.st);
    var r := SoundApplied(l, m, i, call.name, args.value, kwargs, 1, fuel, before, called);
    RecordsSkip(m.fns, r.trace, given.st, before, called.st);
    v := CallRecords(l.depth, fuel, m, scope, env, call, i, Done(args.value, []), Done(given.value, []), kwargs, r,
                     START, args.st, given.st, called.st);
  }

  lemma EvalOfCompare(fuel: nat, m: Module, scope: set<Ident>, env: Env, e: Expr, x: Done<PyValue>, y: PyValue,
                      same: bool)
    requires e.Compare? && Compared(e.cmp, x.value, y) == Some(same)
    requires Eval(fuel, m, scope, env, e.first) == Some(x) && Eval(fuel, m, scope, env, e.second) == Some(Done(y, []))
    ensures Eval(fuel, m, scope, env, e) == Some(Done(VBool(same), x.trace))
  {
    assert x.trace + [] == x.trace;
  }

  /** The reported verdict `o` is the one of Python on `test`, where the names in `scope` do not mean the
      module's: for an assertion in the body of `t`, the names of Locals(t). */
  ghost predicate Verdict(fuel: nat, m: Module, scope: set<Ident>, env: Env, test: Expr, o: Observation) {
    var r := Eval(fuel, m, scope, env, test);
    && r.Some? && r.value.value == VBool(o.matches)
    && Lines(r.value.trace) <= o.visited
    && (PlainDefaults(m.fns) ==> o.visited == Lines(r.value.trace) && o.branches == Branches(r.value.trace))
  }

  lemma VerdictFromRecords(fuel: nat, m: Module, scope: set<Ident>, env: Env, test: Expr, o: Observation, t: seq<Event>,
                           st: State)
    requires Eval(fuel, m, scope, env, test) == Some(Done(VBool(o.matches), t))
    requires Records(m.fns, t, START, st) && o.visited == st.visited && o.branches == st.branches
    ensures Verdict(fuel, m, scope, env, test, o)
  {
    assert {} + Lines(t) == Lines(t) && [] + Branches(t) == Branches(t);
  }

  lemma VerdictWhereModuleIsMeant(l: Limits, m: Script, scope: set<Ident>, env: Env, line: nat, test: Expr)
    requires Observe(l, m.fns, line, test).Some? && test.first.name !in scope
    ensures Verdict(l.depth, m, scope, env, test, Observe(l, m.fns, line, test).value)
  {
    var call := test.first;
    var args := Values(l, m.fns, call.args, map[], 0, START);
    var given := Values(l, m.fns, call.keyValues, map[], 0, args.st);
    var asserted := Value(l, m.fns, test.second, map[], 0, given.st);
    var kwargs := Keywords(call.keys, given.value).value;
    var called := Called(l, m.fns, call.name, args.value, kwargs, 1, asserted.st);
    var o := Observe(l, m.fns, line, test).value;
    LiteralEvaluates(l, m, scope, env, test.second, given.st);
    var x := CallAsObserved(l, m, scope, env, call, kwargs, Find(m.fns, call.name).value, l.depth - 1, args, given,
                            asserted.st, called);
    EvalOfCompare(l.depth, m, scope, env, test, x, asserted.value, o.matches);
    VerdictFromRecords(l.depth, m, scope, env, test, o, x.trace, called.st);
  }

  // ---- Where the assertion stands ----

  /** A default is one object for all calls (section 8.7): a list or dict may have been changed in place
      since the `def`, any other value is the one it was. */
  predicate MayBecome(v: PyValue, w: PyValue) {
    if v.VList? then w.VList? else if v.VDict? then w.VDict? else w == v
  }

  /** `now` is the loaded module `m` after some code has run that rebound no name of it. */
  predicate Later(m: Module, now: Module) {
    && now.fns == m.fns
    && forall i, j :: 0 <= i < |m.defaults| && 0 <= j < |m.defaults[i]| ==>
         MayBecome(m.defaults[i][j], now.defaults[i][j])
  }

  /** No default of the file has a list or dict as its value. */
  predicate NoContainers(m: Module) {
    forall i, j :: 0 <= i < |m.defaults| && 0 <= j < |m.defaults[i]| ==>
      !m.defaults[i][j].VList? && !m.defaults[i][j].VDict?
  }

  /** Then nothing can have changed. */
  lemma NothingBecomes(m: Module, now: Module)
    requires Later(m, now) && NoContainers(m)
    ensures now == m
  {
    forall i | 0 <= i < |m.defaults|
      ensures now.defaults[i] == m.defaults[i]
    {
      assert |now.defaults[i]| == |m.fns[i].defaults| == |m.defaults[i]|;
    }
    assert now.defaults == m.defaults;
  }

  /** The spelling of an identifier in the body of a class of this name (section 6.2.1): `__x` stands
      for `_C__x`, unless it ends in two underscores or the name of the class is all underscores. */
  function Mangled(cls: Option<string>, id: Ident): Ident {
    if cls.Some? && id.Named? && Private(id.s) && Stripped(cls.value) != "" then Named("_" + Stripped(cls.value) + id.s)
    else id
  }

  predicate Private(s: string) { |s| > 2 && s[..2] == "__" && s[|s| - 2..] != "__" }

  function Stripped(s: string): string { if s != "" && s[0] == '_' then Stripped(s[1..]) else s }

  /** What the compiler makes of an observable assertion in the body of a class, or outside of any. */
  function Compiled(cls: Option<string>, test: Expr): Expr
    requires test.Compare? && test.first.Call?
  {
    var call := test.first;
    var keys := seq(|call.keys|, i requires 0 <= i < |call.keys| =>
      match call.keys[i] case Some(k) => Some(Mangled(cls, k)) case None => None);
    test.(first := call.(name := Mangled(cls, call.name), keys := keys))
  }

  /** On a file that can be trusted and loads, the reported verdict is the one Python reaches where the
      assertion stands - with the reported lines, all of them if no default of the file calls a function,
      and the reported branches - if and only if the called name means the module's there: for an assertion
      that no class spells differently, on a module without list or dict defaults, or with all of them as
      they were loaded. A called name that is a local one there never has the reported verdict. */
  lemma ObservationIsPythonsVerdict(l: Limits, m: Script, now: Module, cls: Option<string>, scope: set<Ident>,
                                    env: Env, line: nat, test: Expr)
    requires Observe(l, m.fns, line, test).Some? && Later(m, now)
    ensures test.Compare? && test.first.Call?
    ensures Compiled(cls, test).first.name in scope ==>
              !Verdict(l.depth, now, scope, env, Compiled(cls, test), Observe(l, m.fns, line, test).value)
    ensures Compiled(cls, test) == test && (NoContainers(m) || now == m) ==>
              (Verdict(l.depth, now, scope, env, Compiled(cls, test), Observe(l, m.fns, line, test).value)
               <==> test.first.name !in scope)
  {
    ObservedIsACall(l, m.fns, line, test);
    var compiled := Compiled(cls, test);
    if compiled.first.name in scope {
      NoVerdictWhereShadowed(l.depth, now, scope, env, compiled);
    } else if compiled == test && (NoContainers(m) || now == m) {
      if NoContainers(m) {
        NothingBecomes(m, now);
      }
      VerdictWhereModuleIsMeant(l, m, scope, env, line, test);
    }
  }

  lemma ObservedIsACall(l: Limits, fns: seq<Fn>, line: nat, test: Expr)
    requires Observe(l, fns, line, test).Some?
    ensures test.Compare? && test.first.Call?
  {}

  /** Where the called name is a local one the reference semantics has no value for the assertion. */
  lemma NoVerdictWhereShadowed(fuel: nat, m: Module, scope: set<Ident>, env: Env, test: Expr)
    requires test.Compare? && test.first.Call? && test.first.name in scope
    ensures Eval(fuel, m, scope, env, test).None?
  {
    assert Eval(fuel, m, scope, env, test.first).None?;
  }
}
