/** Where projection and Python part: for the conditions that soundness puts on a file, families of files
    that break them and on which the answer is wrong. */
module Counterexamples {
  import opened Options
  import opened PythonSubset
  import opened Projecting
  import opened ReferenceLaws
  import opened Soundness
  import opened Observations

  const F := Named("f")
  const G := Named("g")
  const X := Named("x")

  /** `def name(params): <body>` */
  function Def(name: Ident, params: seq<Ident>, body: seq<Stmt>): Fn {
    Fn(name, params, [], true, Ordinary, {}, {}, true, body)
  }

  function Calls(name: Ident, args: seq<Expr>): Expr { Call(name, args, [], []) }

  function Returns(line: nat, e: Expr): seq<Stmt> { [Return(line, Some(e))] }

  lemma CalledIs(fns: seq<Fn>, f: Fn, depth: nat, st: State, ds: seq<PyValue>, u: State, env: Env)
    requires depth <= 4 && Find(fns, f.name).Some? && f == fns[Find(fns, f.name).value] && Callable(f, 0, {})
    requires Values(LIMITS, fns, f.defaults, map[], depth, st) == Ok(ds, u) && |ds| <= |f.params|
    requires env == Gathered(f, ds, [], map[])
    ensures Called(LIMITS, fns, f.name, [], map[], depth, st) == RunBody(LIMITS, fns, f.name, f, env, depth, u)
  {
    var none: Env := map[];
    assert none.Keys == {};
  }

  /** `def name(): return e` and whatever follows, projected. */
  lemma ProjectedReturn(fns: seq<Fn>, f: Fn, line: nat, e: Expr, depth: nat, st: State)
    requires Find(fns, f.name).Some? && f == fns[Find(fns, f.name).value] && depth <= 4 && st.steps < 160
    requires f.params == [] && f.defaults == [] && f.plain && NoBuiltin(AllStores(f))
    requires f.body != [] && f.body[0] == Return(line, Some(e))
    ensures var here := Stepped(st).(visited := st.visited + {line});
            var v := Value(LIMITS, fns, e, map[], depth, here);
            var called := Called(LIMITS, fns, f.name, [], map[], depth, st);
            if v.Ok? then called == v else called.Unsupported?
  {
    var none: Env := map[];
    assert Gathered(f, [], [], none) == none && none.Keys == (set p | p in f.params) == {};
    CalledIs(fns, f, depth, st, [], st, none);
    ReturnIs(fns, f, e, none, depth, st);
  }

  /** `def name(): return e`, projected and in Python. */
  lemma OneReturn(fns: seq<Fn>, i: nat, defaults: seq<seq<PyValue>>, line: nat, e: Expr, depth: nat, st: State,
                  fuel: nat)
    requires WellFormed(fns) && Loadable(Loaded(fns, defaults)) && i < |fns| && depth <= 4 && st.steps < 160
    requires fns[i] == Def(fns[i].name, [], Returns(line, e)) && ExprBinds(e) == {}
    ensures var here := Stepped(st).(visited := st.visited + {line});
            var v := Value(LIMITS, fns, e, map[], depth, here);
            var called := Called(LIMITS, fns, fns[i].name, [], map[], depth, st);
            if v.Ok? then called == v else called.Unsupported?
    ensures var m: Module := Loaded(fns, defaults);
            var v := Eval(fuel, m, {}, map[], e);
            Apply(fuel, m, i, [], map[])
              == if v.Some? then Some(Done(v.value.value, [Ran(line)] + v.value.trace)) else None
  {
    var f, none: Env := fns[i], map[];
    FindUnique(fns, i);
    assert Stores(f.body[1..]) == {} && Binds(f.body[1..]) == {};
    assert Locals(f) == {} && AllStores(f) == {};
    ProjectedReturn(fns, f, line, e, depth, st);
    assert Bindings(f, [], [], none) == none;
    assert Bound(f, defaults[i], [], none) == Some(none);
  }

  /** A body that begins with `return`. */
  lemma ReturnIs(fns: seq<Fn>, f: Fn, e: Expr, env: Env, depth: nat, st: State)
    requires f.body != [] && f.body[0].Return? && f.body[0].value == Some(e) && st.steps < 160
    requires env.Keys == (set p | p in f.params)
    ensures var v := Value(LIMITS, fns, e, env, depth, Stepped(st).(visited := st.visited + {f.body[0].line}));
            RunBody(LIMITS, fns, f.name, f, env, depth, st) == if v.Ok? then v else Unsupported
  {}

  lemma OneConstant(fns: seq<Fn>, i: nat, defaults: seq<seq<PyValue>>, line: nat, n: int, depth: nat, st: State,
                    fuel: nat)
    requires WellFormed(fns) && Loadable(Loaded(fns, defaults)) && i < |fns| && depth <= 4 && st.steps < 159 && Small(n)
    requires fns[i] == Def(fns[i].name, [], Returns(line, Constant(CInt(n))))
    ensures Called(LIMITS, fns, fns[i].name, [], map[], depth, st)
            == Ok(VInt(n), State(st.steps + 2, st.branches, st.visited + {line}))
    ensures var m: Module := Loaded(fns, defaults);
            Apply(fuel, m, i, [], map[]) == Some(Done(VInt(n), [Ran(line)]))
  {
    OneReturn(fns, i, defaults, line, Constant(CInt(n)), depth, st, fuel);
    assert [Ran(line)] + [] == [Ran(line)];
  }

  lemma InterpretHead(es: seq<Expr>, env: Env, nesting: nat)
    requires |es| == 1 && Interpret(es[0], env, nesting).Some?
    ensures InterpretAll(es, env, nesting) == Some([Interpret(es[0], env, nesting).value])
  {
    var v := Interpret(es[0], env, nesting).value;
    assert InterpretAll(es[1..], env, nesting) == Some([]) && [v] + [] == [v];
  }

  lemma BindsNothing(name: Ident, c: Const)
    ensures ExprBinds(Calls(name, [Constant(c)])) == {}
  {
    var es := [Constant(c)];
    assert AllBind(es[1..]) == {} && ExprBinds(es[0]) == {};
    assert AllBind(es) == {} && AllBind([]) == {};
  }

  lemma Returned(fns: seq<Fn>, name: Ident, body: seq<Stmt>, env: Env, depth: nat, st: State, v: PyValue, w: State)
    requires body != [] && body[0].Return? && body[0].value.Some? && st.steps < 160
    requires Value(LIMITS, fns, body[0].value.value, env, depth, Stepped(st).(visited := st.visited + {body[0].line}))
               == Ok(v, w)
    ensures Block(LIMITS, fns, name, body, env, depth, st) == Ok(Exit(Some(v), env), w)
  {}

  lemma Assigned(fns: seq<Fn>, name: Ident, body: seq<Stmt>, env: Env, depth: nat, st: State, v: PyValue, w: State)
    requires body != [] && body[0].Assign? && st.steps < 160
    requires Value(LIMITS, fns, body[0].rhs, env, depth, Stepped(st).(visited := st.visited + {body[0].line}))
               == Ok(v, w)
    ensures Block(LIMITS, fns, name, body, env, depth, st)
              == Block(LIMITS, fns, name, body[1..], env[body[0].id := v], depth, w)
  {}

  /** Python's side of a body that is one silent `return`. */
  lemma Applied(fuel: nat, m: Module, i: nat, args: seq<PyValue>, env: Env, v: PyValue)
    requires i < |m.fns| && Bound(m.fns[i], m.defaults[i], args, map[]) == Some(env) && m.fns[i].plain
    requires m.fns[i].kind.Ordinary? && |m.fns[i].body| == 1 && m.fns[i].body[0].Return? && m.fns[i].body[0].value.Some?
    requires Eval(fuel, m, Locals(m.fns[i]), env, m.fns[i].body[0].value.value) == Some(Done(v, []))
    ensures Apply(fuel, m, i, args, map[]) == Some(Done(v, [Ran(m.fns[i].body[0].line)]))
  {
    var ran := [Ran(m.fns[i].body[0].line)];
    assert ran + [] == ran;
  }

  /** A call without arguments of a function of the file. */
  lemma PlainCall(fns: seq<Fn>, name: Ident, env: Env, depth: nat, st: State)
    requires Find(fns, name).Some? && name !in env && st.steps < 160 && depth <= 4
    ensures Value(LIMITS, fns, Calls(name, []), env, depth, st)
            == Called(LIMITS, fns, name, [], map[], depth + 1, Stepped(st))
  {}

  // ---- A function named like a builtin ----

  /** `def len(x): return v` and `def f(): return -len(s)`. */
  function Shadowing(s: string, v: int): seq<Fn> {
    [Def(Len, [X], Returns(2, Constant(CInt(v)))), Def(F, [], Returns(4, Neg(Calls(Len, [Constant(CStr(s))]))))]
  }

  lemma BoundOne(f: Fn, p: Ident, v: PyValue)
    requires f.params == [p] && f.defaults == []
    ensures Bound(f, [], [v], map[]) == Some(map[p := v])
  {
    assert Bindings(f, [], [v], map[]) == map[p := v];
  }

  lemma ShadowedCall(m: Module, len: Expr, s: string, v: int, fuel: nat)
    requires 0 < fuel && m == Loaded(Shadowing(s, v), [[], []]) && len == Calls(Len, [Constant(CStr(s))])
    ensures Eval(fuel, m, {}, map[], len) == Some(Done(VInt(v), [Ran(2)]))
  {
    FindUnique(m.fns, 0);
    EvalOne(fuel, m, {}, map[], len.args);
    var args := [VStr(s)];
    BoundOne(m.fns[0], X, VStr(s));
    Applied(fuel - 1, m, 0, args, map[X := VStr(s)], VInt(v));
    assert EvalAll(fuel, m, {}, map[], len.keyValues) == Some(Done([], []));
    CallIs(fuel, m, {}, map[], len, 0, Done(args, []), Done([], []), map[]);
    assert [] + [] + [Ran(2)] == [Ran(2)];
  }

  lemma BuiltinProjected(len: Expr, s: string)
    requires |s| <= MAX_STRING && len == Calls(Len, [Constant(CStr(s))])
    ensures Interpret(Neg(len), map[], 0) == Some(VInt(-|s|))
  {
    InterpretHead(len.args, map[], 2);
    assert Interpret(len, map[], 1) == Some(VInt(|s|));
  }

  lemma ShadowedNegation(m: Module, len: Expr, e: Expr, s: string, v: int, fuel: nat)
    requires |s| <= MAX_STRING && 0 < fuel && m == Loaded(Shadowing(s, v), [[], []])
    requires len == Calls(Len, [Constant(CStr(s))]) && e == Neg(len)
    ensures Value(LIMITS, m.fns, e, map[], 1, State(1, [], {4})) == Ok(VInt(-|s|), State(2, [], {4}))
    ensures Eval(fuel, m, {}, map[], e) == Some(Done(VInt(-v), [Ran(2)]))
  {
    BuiltinProjected(len, s);
    ShadowedCall(m, len, s, v, fuel);
  }

  /** Nested in another operand the file's own `len` is taken for the builtin: the answer is right
      if and only if the two agree. */
  lemma ShadowedBuiltin(m: Module, s: string, v: int, fuel: nat)
    requires m == Loaded(Shadowing(s, v), [[], []]) && |s| <= MAX_STRING && 0 < fuel
    ensures var projected, actual := Called(LIMITS, m.fns, F, [], map[], 1, START), Apply(fuel, m, 1, [], map[]);
            && projected.Ok? && actual.Some?
            && (projected.value == actual.value.value <==> v == |s|)
  {
    var len := Calls(Len, [Constant(CStr(s))]);
    BindsNothing(Len, CStr(s));
    ShadowedNegation(m, len, Neg(len), s, v, fuel);
    Divergence(m, 1, 4, Neg(len), VInt(-|s|), State(2, [], {4}), Done(VInt(-v), [Ran(2)]), fuel);
  }

  /** `def name(): return e` where projection has `x` for `e` and Python `y`. */
  lemma Divergence(m: Module, i: nat, line: nat, e: Expr, x: PyValue, st: State, y: Done<PyValue>, fuel: nat)
    requires WellFormed(m.fns) && i < |m.fns| && ExprBinds(e) == {}
    requires m.fns[i] == Def(m.fns[i].name, [], Returns(line, e))
    requires Value(LIMITS, m.fns, e, map[], 1, State(1, [], {line})) == Ok(x, st)
    requires Eval(fuel, m, {}, map[], e) == Some(y)
    ensures Called(LIMITS, m.fns, m.fns[i].name, [], map[], 1, START) == Ok(x, st)
    ensures Apply(fuel, m, i, [], map[]) == Some(Done(y.value, [Ran(line)] + y.trace))
  {
    OneReturn(m.fns, i, m.defaults, line, e, 1, START, fuel);
    assert Stepped(START).(visited := START.visited + {line}) == State(1, [], {line});
  }

  // ---- A local variable named like a function of the file ----

  /** `def g(): return c` and `def f(): x = g(); g = d; return x`. */
  function Unbinding(c: int, d: int): seq<Fn> {
    [Def(G, [], Returns(2, Constant(CInt(c)))),
     Def(F, [], [Assign(4, X, Calls(G, [])), Assign(5, G, Constant(CInt(d))), Return(6, Some(Name(X)))])]
  }

  lemma UnbindingNames(c: int, d: int)
    ensures var f := Unbinding(c, d)[1]; AllStores(f) == {X, G} && G in Locals(f)
  {
    var body := Unbinding(c, d)[1].body;
    assert body[2..] == [body[2]] && body[1..][1..] == body[2..] && body[2..][1..] == [];
    assert Stores(body[2..]) == {} && Binds(body[2..]) == {};
    assert Stores(body[1..]) == {G} && Binds(body[1..]) == {G};
    assert Stores(body) == {X} + AllBind([]) + AllBind([]) + Stores(body[1..]);
  }

  lemma NeverReturns(m: Module, c: int, d: int, fuel: nat)
    requires m == Loaded(Unbinding(c, d), [[], []])
    ensures Apply(fuel, m, 1, [], map[]).None?
  {
    var f, none: Env := m.fns[1], map[];
    UnbindingNames(c, d);
    assert Eval(fuel, m, Locals(f), Bindings(f, [], [], none), Calls(G, [])).None?;
  }

  /** Python raises UnboundLocalError; projection calls the function. */
  lemma LocalBeforeAssignment(m: Module, c: int, d: int, fuel: nat)
    requires Small(c) && Small(d) && m == Loaded(Unbinding(c, d), [[], []])
    ensures Called(LIMITS, m.fns, F, [], map[], 1, START).Ok? && Apply(fuel, m, 1, [], map[]).None?
  {
    NeverReturns(m, c, d, fuel);
    UnboundAnswers(m.fns, m.fns[1], c, d);
  }

  lemma UnboundAnswers(fns: seq<Fn>, f: Fn, c: int, d: int)
    requires Small(c) && Small(d) && fns == Unbinding(c, d) && f == fns[1]
    ensures Called(LIMITS, fns, f.name, [], map[], 1, START).Ok?
  {
    UnbindingNames(c, d);
    FindUnique(fns, 1);
    UnboundBody(fns, c, d);
    BodyAnswers(fns, f);
  }

  /** A function without parameters whose body returns is answered. */
  lemma BodyAnswers(fns: seq<Fn>, f: Fn)
    requires Find(fns, f.name).Some? && f == fns[Find(fns, f.name).value]
    requires f.params == [] && f.defaults == [] && Callable(f, 0, {})
    requires var b := Block(LIMITS, fns, f.name, f.body, map[], 1, START); b.Ok? && b.value.returned.Some?
    ensures Called(LIMITS, fns, f.name, [], map[], 1, START).Ok?
  {
    var none: Env := map[];
    assert Gathered(f, [], [], none) == none && none.Keys == (set p | p in f.params) == {};
    CalledIs(fns, f, 1, START, [], START, none);
  }

  lemma UnboundBody(fns: seq<Fn>, c: int, d: int)
    requires fns == Unbinding(c, d) && Small(c) && Small(d)
    ensures var b := Block(LIMITS, fns, F, fns[1].body, map[], 1, START);
            b.Ok? && b.value.returned == Some(VInt(c))
  {
    var body, w := fns[1].body, State(4, [], {} + {4} + {2});
    UnboundStart(fns, body, map[], c, START, w);
    assert body[1..][0] == body[1] && body[1..][1..] == body[2..] && body[2..][0] == body[2];
    UnboundEnd(fns, body[1..], map[X := VInt(c)], c, d, w);
  }

  lemma CallOfG(fns: seq<Fn>, defaults: seq<seq<PyValue>>, c: int, env: Env, here: State, w: State)
    requires WellFormed(fns) && Loadable(Loaded(fns, defaults)) && fns != []
             && fns[0] == Def(G, [], Returns(2, Constant(CInt(c))))
    requires Small(c) && G !in env && here.steps < 150 && w == State(here.steps + 3, here.branches, here.visited + {2})
    ensures Value(LIMITS, fns, Calls(G, []), env, 1, here) == Ok(VInt(c), w)
  {
    FindUnique(fns, 0);
    PlainCall(fns, G, env, 1, here);
    OneConstant(fns, 0, defaults, 2, c, 2, Stepped(here), 0);
  }

  lemma UnboundStart(fns: seq<Fn>, body: seq<Stmt>, env: Env, c: int, st: State, w: State)
    requires WellFormed(fns) && |fns| == 2 && fns[0] == Def(G, [], Returns(2, Constant(CInt(c))))
             && fns[1] == Def(F, [], body)
    requires body != [] && body[0] == Assign(4, X, Calls(G, [])) && Small(c) && G !in env && st == START
    requires w == State(4, [], st.visited + {4} + {2})
    ensures Block(LIMITS, fns, F, body, env, 1, st) == Block(LIMITS, fns, F, body[1..], env[X := VInt(c)], 1, w)
  {
    var here := Stepped(st).(visited := st.visited + {4});
    CallOfG(fns, [[], []], c, env, here, w);
    Assigned(fns, F, body, env, 1, st, VInt(c), w);
  }

  lemma UnboundEnd(fns: seq<Fn>, body: seq<Stmt>, env: Env, c: int, d: int, st: State)
    requires |body| == 2 && body[0] == Assign(5, G, Constant(CInt(d))) && body[1] == Return(6, Some(Name(X)))
    requires X in env && env[X] == VInt(c) && Small(d) && st.steps == 4
    ensures var b := Block(LIMITS, fns, F, body, env, 1, st);
            b.Ok? && b.value.returned == Some(VInt(c))
  {
    var next := Stepped(st).(visited := st.visited + {5});
    Assigned(fns, F, body, env, 1, st, VInt(d), Stepped(next));
    var last := Stepped(Stepped(next)).(visited := next.visited + {6});
    Returned(fns, F, body[1..], env[G := VInt(d)], 1, Stepped(next), VInt(c), Stepped(last));
  }

  // ---- A range that is not unwrapped ----

  /** `def f(): return range(n)` */
  function Ranging(n: int): seq<Fn> { [Def(F, [], Returns(2, Calls(Range, [Constant(CInt(n))])))] }

  lemma {:induction false} CountedLength(start: int, stop: int)
    requires start <= stop
    ensures |Counted(start, stop, 1)| == stop - start
    decreases stop - start
  {
    if start < stop {
      CountedLength(start + 1, stop);
    }
  }

  lemma RangeBoth(m: Module, range: Expr, n: int, fuel: nat)
    requires 0 <= n <= MAX_SEQUENCE && range == Calls(Range, [Constant(CInt(n))]) && Find(m.fns, Range).None?
    ensures Interpret(range, map[], 0) == Some(VList(AsValues(Counted(0, n, 1))))
    ensures Eval(fuel, m, {}, map[], range) == Some(Done(VRange(Counted(0, n, 1)), []))
  {
    CountedLength(0, n);
    InterpretHead(range.args, map[], 1);
    EvalOne(fuel, m, {}, map[], range.args);
    assert Ints([VInt(n)]) == [n];
    BuiltinCall(fuel, m, {}, map[], range, [VInt(n)]);
  }

  lemma RangeAnswers(m: Module, range: Expr, ints: seq<int>, fuel: nat)
    requires m.fns == [Def(F, [], Returns(2, range))] && m.defaults == [[]] && ExprBinds(range) == {} && range.Call?
             && IsBuiltin(range.name)
    requires Interpret(range, map[], 0) == Some(VList(AsValues(ints)))
             && Eval(fuel, m, {}, map[], range) == Some(Done(VRange(ints), []))
    ensures var projected, actual := Called(LIMITS, m.fns, F, [], map[], 1, START), Apply(fuel, m, 0, [], map[]);
            projected.Ok? && projected.value == VList(AsValues(ints)) && actual.Some?
            && actual.value.value == VRange(ints)
  {
    OneReturn(m.fns, 0, m.defaults, 2, range, 1, START, fuel);
  }

  /** Projection answers with a list, and no list equals Python's range object. */
  lemma RangeIsNotAList(m: Module, n: int, list: seq<PyValue>, fuel: nat)
    requires 0 <= n <= MAX_SEQUENCE && m == Loaded(Ranging(n), [[]])
    ensures var projected, actual := Called(LIMITS, m.fns, F, [], map[], 1, START), Apply(fuel, m, 0, [], map[]);
            && projected.Ok? && actual.Some? && projected.value == VList(AsValues(Counted(0, n, 1)))
            && actual.value.value.VRange? && !Equal(actual.value.value, VList(list))
  {
    var range := Calls(Range, [Constant(CInt(n))]);
    BindsNothing(Range, CInt(n));
    RangeBoth(m, range, n, fuel);
    RangeAnswers(m, range, Counted(0, n, 1), fuel);
  }

  // ---- A default that calls a function of the file ----

  /** `def g(): return c` and `def f(x=g()): return x`. */
  function Defaulting(c: int): seq<Fn> {
    [Def(G, [], Returns(2, Constant(CInt(c)))), Def(F, [X], Returns(4, Name(X))).(defaults := [Calls(G, [])])]
  }

  lemma DefaultRun(m: Module, c: int, fuel: nat)
    requires m == Loaded(Defaulting(c), [[], [VInt(c)]])
    ensures Apply(fuel, m, 1, [], map[]) == Some(Done(VInt(c), [Ran(4)]))
  {
    var f, env := m.fns[1], map[X := VInt(c)];
    assert Bindings(f, [VInt(c)], [], map[]) == env;
    assert Bound(f, [VInt(c)], [], map[]) == Some(env);
    Applied(fuel, m, 1, [], env, VInt(c));
  }

  lemma ZipNone(names: seq<Ident>, values: seq<PyValue>)
    requires names == []
    ensures Zip(names, values) == map[]
  {}

  lemma ZipOne(names: seq<Ident>, values: seq<PyValue>)
    requires |names| == 1 == |values|
    ensures Zip(names, values) == map[names[0] := values[0]]
  {
    ZipNone(names[..0], values[..0]);
  }

  lemma GatheredOne(f: Fn, p: Ident, v: PyValue)
    requires f.params == [p]
    ensures Gathered(f, [v], [], map[]) == map[p := v]
  {
    ZipOne(f.params[0..], [v]);
    ZipNone(f.params[..0], []);
  }

  /** `def name(x=d): return x`, projected from where its parameter is bound. */
  lemma DefaultBody(fns: seq<Fn>, f: Fn, d: Expr, line: nat, env: Env, v: PyValue, st: State, w: State)
    requires f == Def(f.name, [X], Returns(line, Name(X))).(defaults := [d]) && ExprBinds(d) == {} && st.steps < 100
    requires env == map[X := v] && w == State(st.steps + 2, st.branches, st.visited + {line})
    ensures Callable(f, 0, {}) && RunBody(LIMITS, fns, f.name, f, env, 1, st) == Ok(v, w)
  {
    assert Stores(f.body[1..]) == {} && AllBind([]) == {};
    assert f.defaults[1..] == [] && AllBind(f.defaults) == {} && AllStores(f) == {};
    assert env.Keys == (set p | p in f.params) == {X};
    ReturnIs(fns, f, Name(X), env, 1, st);
  }

  lemma DefaultCalled(fns: seq<Fn>, f: Fn, c: int)
    requires fns == Defaulting(c) && Small(c) && f == fns[1]
    ensures Called(LIMITS, fns, F, [], map[], 1, START) == Ok(VInt(c), State(5, [], {2, 4}))
  {
    var none: Env, u := map[], State(3, [], {} + {2});
    CallOfG(fns, [[], [VInt(c)]], c, none, START, u);
    assert {} + {2} + {4} == {2, 4} && AllBind([]) == {} && ExprBinds(Calls(G, [])) == {};
    DefaultAnswers(fns, 1, f, Calls(G, []), 4, VInt(c), START, u, State(5, [], {2, 4}));
  }

  /** The value is right, but line 2 is reported as executed by the call, when it ran at the `def`. */
  lemma DefaultsRunAgain(m: Module, c: int, fuel: nat)
    requires Small(c) && m == Loaded(Defaulting(c), [[], [VInt(c)]])
    ensures var projected, actual := Called(LIMITS, m.fns, F, [], map[], 1, START), Apply(fuel, m, 1, [], map[]);
            && projected.Ok? && actual.Some? && projected.value == actual.value.value == VInt(c)
            && projected.st.visited == {2, 4} && Lines(actual.value.trace) == {4}
  {
    DefaultCalled(m.fns, m.fns[1], c);
    DefaultRun(m, c, fuel);
    assert Ran(4) in [Ran(4)];
  }

  // ---- A generator function ----

  /** `def f(): return c` followed by `yield`. */
  function Yielding(c: int): seq<Fn> {
    [Def(F, [], [Return(2, Some(Constant(CInt(c)))), Unknown(3, {}, {})]).(kind := Generator)]
  }

  /** `name() == c` */
  function Equals(name: Ident, c: int): Expr { Compare(Eq, Calls(name, []), Constant(CInt(c))) }

  /** Observing `assert name() == c` when the call is projected to `c`. */
  lemma ObservedEquality(fns: seq<Fn>, line: nat, test: Expr, name: Ident, c: int, v: PyValue, st: State)
    requires Small(c) && test == Equals(name, c) && v == VInt(c)
    requires Called(LIMITS, fns, name, [], map[], 1, State(1, [], {})) == Ok(v, st)
    ensures Observe(LIMITS, fns, line, test).Some? && Observe(LIMITS, fns, line, test).value.matches
  {
    EqualityIsObservable(test, name, c);
    var asserted := Value(LIMITS, fns, test.second, map[], 0, START);
    assert asserted == Ok(v, State(1, [], {}));
    ObservedWithout(fns, line, test, asserted, Ok(v, st));
    assert Compared(test.cmp, v, v) == Some(true);
  }

  lemma EqualityIsObservable(test: Expr, name: Ident, c: int)
    requires test == Equals(name, c)
    ensures Observable(test)
  {}

  /** An observed call without arguments. */
  lemma ObservedWithout(fns: seq<Fn>, line: nat, test: Expr, asserted: Ret<PyValue>, called: Ret<PyValue>)
    requires Observable(test) && test.first == Calls(test.first.name, []) && asserted.Ok? && called.Ok?
    requires asserted == Value(LIMITS, fns, test.second, map[], 0, START)
    requires called == Called(LIMITS, fns, test.first.name, [], map[], 1, asserted.st)
    ensures Observe(LIMITS, fns, line, test)
            == match Compared(test.cmp, called.value, asserted.value)
               case None => None
               case Some(same) =>
                 Some(Observation(line, test.first.name, [], map[], called.value, asserted.value, same,
                                  called.st.branches, called.st.visited))
  {
    var none: seq<PyValue>, no: map<Ident, PyValue> := [], map[];
    assert Keywords(test.first.keys, none) == Some(no) && |no| == 0;
  }

  /** The file's function returns `c`, and the match with `c` is reported. */
  lemma ConstantObserved(m: Module, i: nat, name: Ident, at: nat, c: int, line: nat, test: Expr)
    requires Small(c) && WellFormed(m.fns) && i < |m.fns| && m.fns[i] == Def(name, [], Returns(at, Constant(CInt(c))))
    requires test == Equals(name, c)
    ensures Observe(LIMITS, m.fns, line, test).Some? && Observe(LIMITS, m.fns, line, test).value.matches
  {
    OneConstant(m.fns, i, m.defaults, at, c, 1, State(1, [], {}), 0);
    ObservedEquality(m.fns, line, test, name, c, VInt(c), State(3, [], {} + {at}));
  }

  lemma YieldingNames(c: int)
    ensures AllStores(Yielding(c)[0]) == {}
  {
    var body := Yielding(c)[0].body;
    assert body[1..] == [body[1]] && body[1..][1..] == [];
    assert Stores(body[1..]) == {};
  }

  lemma GeneratorProjected(fns: seq<Fn>, f: Fn, c: int)
    requires fns == [f] && f == Yielding(c)[0] && Small(c)
    ensures Called(LIMITS, fns, F, [], map[], 1, State(1, [], {})) == Ok(VInt(c), State(3, [], {2}))
  {
    YieldingNames(c);
    FindUnique(fns, 0);
    ProjectedConstant(fns, f, 2, c, 1, State(1, [], {}));
    assert {} + {2} == {2};
  }

  /** `def name(): return n` and whatever follows, projected. */
  lemma ProjectedConstant(fns: seq<Fn>, f: Fn, line: nat, n: int, depth: nat, st: State)
    requires Find(fns, f.name).Some? && f == fns[Find(fns, f.name).value] && depth <= 4 && st.steps < 159 && Small(n)
    requires f.params == [] && f.defaults == [] && f.plain && NoBuiltin(AllStores(f))
    requires f.body != [] && f.body[0] == Return(line, Some(Constant(CInt(n))))
    ensures Called(LIMITS, fns, f.name, [], map[], depth, st)
            == Ok(VInt(n), State(st.steps + 2, st.branches, st.visited + {line}))
  {
    ProjectedReturn(fns, f, line, Constant(CInt(n)), depth, st);
  }

  lemma GeneratorCalled(m: Module, f: Fn, test: Expr, c: int, fuel: nat)
    requires m == Loaded([f], [[]]) && f.kind.Generator? && f.plain && f.params == [] && f.defaults == [] && f.name == F
             && 0 < fuel
    requires test == Equals(F, c)
    ensures Eval(fuel, m, {}, map[], test) == Some(Done(VBool(false), []))
  {
    var none: Env := map[];
    FindUnique(m.fns, 0);
    assert Bindings(f, [], [], none) == none;
    assert Bound(f, m.defaults[0], [], none) == Some(none);
    CallWithout(m, {}, map[], F, 0, Done(VGenerator, []), fuel);
    EvalOfCompare(fuel, m, {}, map[], test, Done(VGenerator, []), VInt(c), false);
  }

  /** Projection stops at the `return` and reports that `assert f() == c` holds; in Python the call
      returns a generator, and the assertion fails. */
  lemma GeneratorTakenForAValue(m: Module, c: int, line: nat, fuel: nat)
    requires Small(c) && m == Loaded(Yielding(c), [[]]) && 0 < fuel
    ensures var o := Observe(LIMITS, m.fns, line, Equals(F, c)); o.Some? && o.value.matches
    ensures var r := Eval(fuel, m, {}, map[], Equals(F, c)); r.Some? && r.value.value == VBool(false)
  {
    GeneratorProjected(m.fns, m.fns[0], c);
    ObservedEquality(m.fns, line, Equals(F, c), F, c, VInt(c), State(3, [], {2}));
    GeneratorCalled(m, m.fns[0], Equals(F, c), c, fuel);
  }

  // ---- A parameter of the test function ----

  const T := Named("t")

  /** `def g(): return c` and `def t(g): assert g() == c`. */
  function Shielding(c: int): seq<Fn> {
    [Def(G, [], Returns(2, Constant(CInt(c)))), Def(T, [G], [Unknown(4, {}, {})])]
  }

  lemma TwoTrusted(fns: seq<Fn>)
    requires |fns| == 2 && fns[0].name != fns[1].name && WellFormed(fns)
    requires !IsBuiltin(fns[0].name) && !IsBuiltin(fns[1].name) && TrustedFn(fns, fns[0]) && TrustedFn(fns, fns[1])
    ensures Trusted(fns)
  {
    assert fns[..1] == [fns[0]] && fns[..1][..0] == [];
    assert TrustedUpTo(fns, 0) && TrustedUpTo(fns, 1) && TrustedUpTo(fns, 2);
    assert NoneShadows(fns);
  }

  lemma ShieldingIsTrusted(fns: seq<Fn>, g: Fn, t: Fn, c: int)
    requires fns == [g, t] == Shielding(c)
    ensures TrustedFn(fns, g) && TrustedFn(fns, t)
  {
    assert Binds(g.body[1..]) == {} && Binds(t.body[1..]) == {};
    assert Own(g) == {} && Own(t) == {};
    assert FairBody(g.body[1..]) && FairBody(t.body[1..]);
  }

  lemma ShieldingIsScript(m: Module, c: int)
    requires m == Loaded(Shielding(c), [[], []])
    ensures Trusted(m.fns) && Loads(m)
  {
    ShieldingIsTrusted(m.fns, m.fns[0], m.fns[1], c);
    TwoTrusted(m.fns);
    assert LoadsWith(m, 0);
  }

  /** The file can be trusted and loads, and yet the reported match is not Python's verdict: the
      assertion calls the parameter, whatever it is bound to. */
  lemma ParameterTakenForTheFunction(m: Module, c: int, line: nat, env: Env, fuel: nat)
    requires Small(c) && m == Loaded(Shielding(c), [[], []])
    ensures Trusted(m.fns) && Loads(m)
    ensures var o := Observe(LIMITS, m.fns, line, Equals(G, c)); o.Some? && o.value.matches
    ensures Eval(fuel, m, Locals(m.fns[1]), env, Equals(G, c)).None?
  {
    ShieldingIsScript(m, c);
    ConstantObserved(m, 0, G, 2, c, line, Equals(G, c));
    assert G in m.fns[1].params;
    NoVerdictWhereShadowed(fuel, m, Locals(m.fns[1]), env, Equals(G, c));
  }

  // ---- A list default changed in place ----

  const EMPTY := ListDisplay([])

  /** `def f(x=[]): return x` and `def t(): f().append(c); assert f() == []`. */
  function Keeping(): seq<Fn> {
    [Def(F, [X], Returns(2, Name(X))).(defaults := [EMPTY]), Def(T, [], [Unknown(4, {}, {})])]
  }

  /** `name() == []` */
  function IsEmpty(name: Ident): Expr { Compare(Eq, Calls(name, []), EMPTY) }

  lemma KeepingIsTrusted(fns: seq<Fn>, f: Fn, t: Fn)
    requires fns == [f, t] == Keeping()
    ensures TrustedFn(fns, f) && TrustedFn(fns, t)
  {
    assert Binds(f.body[1..]) == {} && Binds(t.body[1..]) == {};
    assert FairBody(f.body[1..]) && FairBody(t.body[1..]);
    assert f.defaults[1..] == [] && AllFair(f.defaults[1..]) && AllFair(EMPTY.elements);
  }

  lemma KeepingIsScript(m: Module)
    requires m == Loaded(Keeping(), [[VList([])], []])
    ensures Trusted(m.fns) && Loads(m)
  {
    KeepingIsTrusted(m.fns, m.fns[0], m.fns[1]);
    TwoTrusted(m.fns);
    KeepingLoads(m);
  }

  lemma KeepingLoads(m: Module)
    requires m == Loaded(Keeping(), [[VList([])], []])
    ensures Loads(m)
  {
    EmptyList(0, Prefix(m, 0), {}, map[]);
    assert LoadsWith(m, 0);
  }

  lemma EmptyList(fuel: nat, m: Module, scope: set<Ident>, env: Env)
    ensures Eval(fuel, m, scope, env, EMPTY) == Some(Done(VList([]), []))
  {
    var done: Done<seq<PyValue>> := Done([], []);
    assert EvalAll(fuel, m, scope, env, EMPTY.elements) == Some(done);
  }

  /** Projection makes the list again. */
  lemma KeptProjected(fns: seq<Fn>, f: Fn)
    requires fns == Keeping() && f == fns[0]
    ensures Called(LIMITS, fns, F, [], map[], 1, State(1, [], {})) == Ok(VList([]), State(4, [], {2}))
  {
    var st, u := State(1, [], {}), State(2, [], {});
    EmptyMade(fns, st, u);
    assert {} + {2} == {2} && AllBind([]) == {} && ExprBinds(EMPTY) == {};
    DefaultAnswers(fns, 0, f, EMPTY, 2, VList([]), st, u, State(4, [], {2}));
  }

  lemma EmptyMade(fns: seq<Fn>, st: State, u: State)
    requires st.steps < 160 && u == Stepped(st)
    ensures Value(LIMITS, fns, EMPTY, map[], 1, st) == Ok(VList([]), u)
  {
    var none: seq<PyValue> := [];
    assert Values(LIMITS, fns, EMPTY.elements, map[], 1, u) == Ok(none, u);
  }

  /** `def name(x=d): return x`, called without arguments. */
  lemma DefaultAnswers(fns: seq<Fn>, i: nat, f: Fn, d: Expr, line: nat, v: PyValue, st: State, u: State, w: State)
    requires WellFormed(fns) && i < |fns| && f == fns[i]
    requires f == Def(f.name, [X], Returns(line, Name(X))).(defaults := [d]) && ExprBinds(d) == {}
    requires Value(LIMITS, fns, d, map[], 1, st) == Ok(v, u) && u.steps < 100
    requires w == State(u.steps + 2, u.branches, u.visited + {line})
    ensures Called(LIMITS, fns, f.name, [], map[], 1, st) == Ok(v, w)
  {
    var env: Env := map[X := v];
    FindUnique(fns, i);
    OneValue(fns, f.defaults, v, st, u);
    GatheredOne(f, X, v);
    DefaultBody(fns, f, d, line, env, v, u, w);
    CalledIs(fns, f, 1, st, [v], u, env);
  }

  lemma OneValue(fns: seq<Fn>, es: seq<Expr>, v: PyValue, st: State, u: State)
    requires |es| == 1 && Value(LIMITS, fns, es[0], map[], 1, st) == Ok(v, u)
    ensures Values(LIMITS, fns, es, map[], 1, st) == Ok([v], u)
  {
    var none: seq<PyValue> := [];
    assert Values(LIMITS, fns, es[1..], map[], 1, u) == Ok(none, u) && [v] + none == [v];
  }

  lemma KeptObserved(fns: seq<Fn>, line: nat)
    requires fns == Keeping()
    ensures Observe(LIMITS, fns, line, IsEmpty(F))
            == Some(Observation(line, F, [], map[], VList([]), VList([]), true, [], {2}))
  {
    var none: seq<PyValue> := [];
    var st, test := State(1, [], {}), IsEmpty(F);
    assert Values(LIMITS, fns, EMPTY.elements, map[], 0, st) == Ok(none, st);
    KeptProjected(fns, fns[0]);
    ObservedWithout(fns, line, test, Ok(VList([]), st), Ok(VList([]), State(4, [], {2})));
    ComparedToEmpty([]);
  }

  lemma ComparedToEmpty(vs: seq<PyValue>)
    ensures Compared(Eq, VList(vs), VList([])) == Some(vs == [])
  {
    assert !HasGenerator(VList([]));
  }

  /** Python passes the list that is there. */
  lemma KeptApplied(now: Module, f: Fn, vs: seq<PyValue>, fuel: nat)
    requires now == Loaded(Keeping(), [[VList(vs)], []]) && f == now.fns[0]
    ensures Apply(fuel, now, 0, [], map[]) == Some(Done(VList(vs), [Ran(2)]))
  {
    var bound, v := map[X := VList(vs)], VList(vs);
    assert Bindings(f, [v], [], map[]) == bound;
    assert Bound(f, [v], [], map[]) == Some(bound);
    Applied(fuel, now, 0, [], bound, v);
  }

  /** Calling a function of the file without arguments. */
  lemma CallWithout(m: Module, scope: set<Ident>, env: Env, name: Ident, i: nat, r: Done<PyValue>, fuel: nat)
    requires Find(m.fns, name) == Some(i) && name !in scope && 0 < fuel
    requires Apply(fuel - 1, m, i, [], map[]) == Some(r)
    ensures Eval(fuel, m, scope, env, Calls(name, [])) == Some(r)
  {
    var done: Done<seq<PyValue>> := Done([], []);
    CallIs(fuel, m, scope, env, Calls(name, []), i, done, done, map[]);
    assert NOTHING + NOTHING + r.trace == r.trace;
  }

  lemma KeptCalled(now: Module, vs: seq<PyValue>, scope: set<Ident>, env: Env, fuel: nat)
    requires now == Loaded(Keeping(), [[VList(vs)], []]) && F !in scope && 0 < fuel
    ensures Eval(fuel, now, scope, env, IsEmpty(F)) == Some(Done(VBool(vs == []), [Ran(2)]))
  {
    FindUnique(now.fns, 0);
    KeptApplied(now, now.fns[0], vs, fuel - 1);
    CallWithout(now, scope, env, F, 0, Done(VList(vs), [Ran(2)]), fuel);
    ListComparedToEmpty(now, scope, env, IsEmpty(F), vs, [Ran(2)], fuel);
  }

  lemma ListComparedToEmpty(m: Module, scope: set<Ident>, env: Env, test: Expr, vs: seq<PyValue>, t: seq<Event>,
                            fuel: nat)
    requires test.Compare? && test == Compare(Eq, test.first, EMPTY)
    requires Eval(fuel, m, scope, env, test.first) == Some(Done(VList(vs), t))
    ensures Eval(fuel, m, scope, env, test) == Some(Done(VBool(vs == []), t))
  {
    EmptyList(fuel, m, scope, env);
    ComparedToEmpty(vs);
    EvalOfCompare(fuel, m, scope, env, test, Done(VList(vs), t), VList([]), vs == []);
  }

  /** The verdict of one line that was run. */
  lemma VerdictOfLine(m: Module, scope: set<Ident>, env: Env, test: Expr, o: Observation, line: nat, b: bool, fuel: nat)
    requires Eval(fuel, m, scope, env, test) == Some(Done(VBool(b), [Ran(line)]))
    requires o.visited == {line} && o.branches == []
    ensures Verdict(fuel, m, scope, env, test, o) <==> o.matches == b
  {
    OneEvent(Ran(line));
  }

  /** The file can be trusted and loads, the called name is the module's, and the match is reported: it is
      Python's verdict if and only if the default is still empty where the assertion stands. After
      `f().append(c)` it is not, for any constant. */
  lemma ListDefaultMadeAgain(m: Module, now: Module, vs: seq<PyValue>, line: nat, test: Expr, scope: set<Ident>,
                             env: Env, o: Option<Observation>, fuel: nat)
    requires m == Loaded(Keeping(), [[VList([])], []]) && now == Loaded(Keeping(), [[VList(vs)], []])
    requires test == IsEmpty(F) && F !in scope && 0 < fuel && o == Observe(LIMITS, m.fns, line, test)
    ensures Trusted(m.fns) && Loads(m) && Later(m, now)
    ensures o.Some? && o.value.matches && (Verdict(fuel, now, scope, env, test, o.value) <==> vs == [])
    ensures forall c: Const :: vs == [OfConst(c)] ==>
              Eval(fuel, now, scope, env, test) == Some(Done(VBool(false), [Ran(2)]))
  {
    assert Trusted(m.fns) && Loads(m) by {
      KeepingIsScript(m);
    }
    assert Later(m, now) by {
      KeepingLater(m, now, vs);
    }
    KeptObserved(m.fns, line);
    KeptVerdict(now, vs, scope, env, o.value, fuel);
  }

  lemma KeepingLater(m: Module, now: Module, vs: seq<PyValue>)
    requires m == Loaded(Keeping(), [[VList([])], []]) && now == Loaded(Keeping(), [[VList(vs)], []])
    ensures Later(m, now)
  {}

  lemma KeptVerdict(now: Module, vs: seq<PyValue>, scope: set<Ident>, env: Env, o: Observation, fuel: nat)
    requires now == Loaded(Keeping(), [[VList(vs)], []]) && F !in scope && 0 < fuel
    requires o.matches && o.visited == {2} && o.branches == []
    ensures Verdict(fuel, now, scope, env, IsEmpty(F), o) <==> vs == []
    ensures Eval(fuel, now, scope, env, IsEmpty(F)) == Some(Done(VBool(vs == []), [Ran(2)]))
  {
    KeptCalled(now, vs, scope, env, fuel);
    VerdictOfLine(now, scope, env, IsEmpty(F), o, 2, vs == [], fuel);
  }

  // ---- A private name in a class ----

  const P := Named("__g")

  /** `def __g(): return c` and, in the body of a class of `def t()`, `assert __g() == c`. */
  function Secret(c: int, cls: string): seq<Fn> {
    [Def(P, [], Returns(2, Constant(CInt(c)))), Def(T, [], [Unknown(4, {}, {Named(cls)})])]
  }

  lemma SecretIsTrusted(fns: seq<Fn>, g: Fn, t: Fn, c: int, cls: string)
    requires fns == [g, t] == Secret(c, cls) && Named(cls) != P && Named(cls) != T
    ensures TrustedFn(fns, g) && TrustedFn(fns, t)
  {
    assert Binds(g.body[1..]) == {} && Binds(t.body[1..]) == {};
    assert Own(g) == {} && Own(t) == {Named(cls)} && Find(fns, Named(cls)).None?;
    assert FairBody(g.body[1..]) && FairBody(t.body[1..]);
  }

  lemma SecretIsScript(m: Module, c: int, cls: string)
    requires m == Loaded(Secret(c, cls), [[], []]) && Named(cls) != P && Named(cls) != T
    ensures Trusted(m.fns) && Loads(m)
  {
    SecretIsTrusted(m.fns, m.fns[0], m.fns[1], c, cls);
    TwoTrusted(m.fns);
    assert LoadsWith(m, 0);
  }

  /** The class spells the name with its own in front. */
  lemma SecretSpelled(cls: string)
    requires Stripped(cls) != ""
    ensures Mangled(Some(cls), P).Named? && |Mangled(Some(cls), P).s| == |Stripped(cls)| + 4
  {
    assert P.s == "__g";
    assert P.s[..2] == "__" && P.s[|P.s| - 2..] == "_g" && "_g"[1] != "__"[1];
  }

  /** A call of what neither is in the file nor a builtin. */
  lemma NothingCalled(fuel: nat, m: Module, scope: set<Ident>, env: Env, test: Expr)
    requires test.Compare? && test.first.Call? && test.first.name.Named? && Find(m.fns, test.first.name).None?
    ensures Eval(fuel, m, scope, env, test).None?
  {
    assert Eval(fuel, m, scope, env, test.first).None?;
  }

  lemma SecretMissing(m: Module, test: Expr, c: int, cls: string, scope: set<Ident>, env: Env, fuel: nat)
    requires m.fns == Secret(c, cls) && test == Equals(P, c) && Stripped(cls) != ""
    ensures Eval(fuel, m, scope, env, Compiled(Some(cls), test)).None?
  {
    SecretSpelled(cls);
    NothingCalled(fuel, m, scope, env, Compiled(Some(cls), test));
  }

  /** The file can be trusted and loads, and the match is reported; in the body of a class Python calls a
      name that nothing has. */
  lemma PrivateNameTakenForTheFunction(m: Module, c: int, cls: string, line: nat, test: Expr, scope: set<Ident>,
                                       env: Env, fuel: nat)
    requires Small(c) && m == Loaded(Secret(c, cls), [[], []]) && test == Equals(P, c)
    requires Stripped(cls) != "" && Named(cls) != P && Named(cls) != T
    ensures Trusted(m.fns) && Loads(m)
    ensures var o := Observe(LIMITS, m.fns, line, test); o.Some? && o.value.matches
    ensures Eval(fuel, m, scope, env, Compiled(Some(cls), test)).None?
  {
    assert Trusted(m.fns) && Loads(m) by {
      SecretIsScript(m, c, cls);
    }
    ConstantObserved(m, 0, P, 2, c, line, test);
    SecretMissing(m, test, c, cls, scope, env, fuel);
  }

  // ---- A type parameter ----

  /** `def g(): return c` and `def f[g](): return g()`. */
  function Parameterized(c: int): seq<Fn> {
    [Def(G, [], Returns(2, Constant(CInt(c)))), Def(F, [], Returns(4, Calls(G, []))).(typeParams := {G})]
  }

  /** In Python `g` is the type parameter; projection calls the function. */
  lemma TypeParameterTakenForTheFunction(m: Module, c: int, fuel: nat)
    requires Small(c) && m == Loaded(Parameterized(c), [[], []])
    ensures Called(LIMITS, m.fns, F, [], map[], 1, START).Ok? && Apply(fuel, m, 1, [], map[]).None?
  {
    var f, here := m.fns[1], Stepped(START).(visited := START.visited + {4});
    assert Eval(fuel, m, Locals(f), Bindings(f, [], [], map[]), Calls(G, [])).None?;
    assert Stores(f.body[1..]) == {} && ExprBinds(Calls(G, [])) == {};
    assert AllStores(f) == {};
    FindUnique(m.fns, 1);
    CallOfG(m.fns, m.defaults, c, map[], here, State(here.steps + 3, [], here.visited + {2}));
    ProjectedReturn(m.fns, f, 4, Calls(G, []), 1, START);
  }

  // ---- A file that does not load ----

  /** `def f(): return c`, followed by what the compiler refuses or by an annotation without a value. */
  function Unloadable(c: int): seq<Fn> { [Def(F, [], Returns(2, Constant(CInt(c)))).(defines := false)] }

  /** An answer for a file that is no module at all. */
  lemma NeverLoads(m: Module, c: int)
    requires Small(c) && m.fns == Unloadable(c)
    ensures Called(LIMITS, m.fns, F, [], map[], 1, START).Ok? && !Loads(m)
  {
    var f := m.fns[0];
    assert Stores(f.body[1..]) == {};
    assert AllStores(f) == {};
    FindUnique(m.fns, 0);
    ProjectedReturn(m.fns, f, 2, Constant(CInt(c)), 1, START);
    assert f in m.fns;
  }
}
