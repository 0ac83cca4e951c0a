/** Larger limits never change an answer of projection: a bound on steps or on call depth only
    decides whether there is one. */
module Stability {
  import opened Options
  import opened PythonSubset
  import opened Projecting

  predicate Within(a: Limits, b: Limits) { a.steps <= b.steps && a.depth <= b.depth }

  lemma {:induction false} ValueStable(a: Limits, b: Limits, fns: seq<Fn>, e: Expr, env: Env, depth: nat, st: State)
    requires Within(a, b) && Value(a, fns, e, env, depth, st).Ok?
    ensures Value(b, fns, e, env, depth, st) == Value(a, fns, e, env, depth, st)
    decreases Room(a, depth), 0, e, 1
  {
    var here := Stepped(st);
    if e.DictDisplay? && |e.items| <= 16 {
      ValuesStable(a, b, fns, e.items, env, depth, here);
    } else if e.ListDisplay? && |e.elements| <= 16 {
      ValuesStable(a, b, fns, e.elements, env, depth, here);
    } else if e.Junct? && e.values != [] {
      JunctStable(a, b, fns, e.j, e.values, env, depth, here);
    } else if e.Compare? {
      ValueStable(a, b, fns, e.first, env, depth, here);
      ValueStable(a, b, fns, e.second, env, depth, Value(a, fns, e.first, env, depth, here).st);
    } else if e.Method? && e.attr == "get" && !e.keyworded {
      ValueStable(a, b, fns, e.target, env, depth, here);
      ValuesStable(a, b, fns, e.margs, env, depth, Value(a, fns, e.target, env, depth, here).st);
    } else if e.Call? && Find(fns, e.name).Some? {
      CallStable(a, b, fns, e, env, depth, here);
    }
  }

  lemma {:induction false} CallStable(a: Limits, b: Limits, fns: seq<Fn>, e: Expr, env: Env, depth: nat, st: State)
    requires Within(a, b) && depth <= a.depth && e.Call?
    requires var vs := Values(a, fns, e.args, env, depth, st);
             && vs.Ok?
             && var ks := Values(a, fns, e.keyValues, env, depth, vs.st);
             && ks.Ok? && Keywords(e.keys, ks.value).Some?
             && Called(a, fns, e.name, vs.value, Keywords(e.keys, ks.value).value, depth + 1, ks.st).Ok?
    ensures var vs := Values(a, fns, e.args, env, depth, st);
            && Values(b, fns, e.args, env, depth, st) == vs
            && var ks := Values(a, fns, e.keyValues, env, depth, vs.st);
            && Values(b, fns, e.keyValues, env, depth, vs.st) == ks
            && var kwargs := Keywords(e.keys, ks.value).value;
            && Called(b, fns, e.name, vs.value, kwargs, depth + 1, ks.st)
               == Called(a, fns, e.name, vs.value, kwargs, depth + 1, ks.st)
    decreases Room(a, depth), 0, e, 0
  {
    ValuesStable(a, b, fns, e.args, env, depth, st);
    var vs := Values(a, fns, e.args, env, depth, st);
    ValuesStable(a, b, fns, e.keyValues, env, depth, vs.st);
    var ks := Values(a, fns, e.keyValues, env, depth, vs.st);
    CalledStable(a, b, fns, e.name, vs.value, Keywords(e.keys, ks.value).value, depth + 1, ks.st);
  }

  lemma {:induction false} ValuesStable(a: Limits, b: Limits, fns: seq<Fn>, es: seq<Expr>, env: Env, depth: nat,
                                        st: State)
    requires Within(a, b) && Values(a, fns, es, env, depth, st).Ok?
    ensures Values(b, fns, es, env, depth, st) == Values(a, fns, es, env, depth, st)
    decreases Room(a, depth), 0, es, 0
  {
    if es != [] {
      ValueStable(a, b, fns, es[0], env, depth, st);
      ValuesStable(a, b, fns, es[1..], env, depth, Value(a, fns, es[0], env, depth, st).st);
    }
  }

  lemma {:induction false} JunctStable(a: Limits, b: Limits, fns: seq<Fn>, j: Junction, es: seq<Expr>, env: Env,
                                       depth: nat, st: State)
    requires Within(a, b) && es != [] && JunctValue(a, fns, j, es, env, depth, st).Ok?
    ensures JunctValue(b, fns, j, es, env, depth, st) == JunctValue(a, fns, j, es, env, depth, st)
    decreases Room(a, depth), 0, es, 0
  {
    ValueStable(a, b, fns, es[0], env, depth, st);
    var v := Value(a, fns, es[0], env, depth, st);
    if |es| > 1 && !Decides(j, v.value) {
      JunctStable(a, b, fns, j, es[1..], env, depth, v.st);
    }
  }

  lemma {:induction false} CalledStable(a: Limits, b: Limits, fns: seq<Fn>, name: Ident, args: seq<PyValue>,
                                        kwargs: map<Ident, PyValue>, depth: nat, st: State)
    requires Within(a, b) && Called(a, fns, name, args, kwargs, depth, st).Ok?
    ensures Called(b, fns, name, args, kwargs, depth, st) == Called(a, fns, name, args, kwargs, depth, st)
    decreases Room(a, depth), 2
  {
    var f := fns[Find(fns, name).value];
    ValuesStable(a, b, fns, f.defaults, map[], depth, st);
    var ds := Values(a, fns, f.defaults, map[], depth, st);
    BlockStable(a, b, fns, name, f.body, Gathered(f, ds.value, args, kwargs), depth, ds.st);
  }

  lemma {:induction false} BlockStable(a: Limits, b: Limits, fns: seq<Fn>, name: Ident, body: seq<Stmt>, env: Env,
                                       depth: nat, st: State)
    requires Within(a, b) && Block(a, fns, name, body, env, depth, st).Ok?
    ensures Block(b, fns, name, body, env, depth, st) == Block(a, fns, name, body, env, depth, st)
    decreases Room(a, depth), 1, body
  {
    if body != [] {
      var here := Stepped(st).(visited := st.visited + {body[0].line});
      match body[0] {
        case Return(_, Some(e)) => ValueStable(a, b, fns, e, env, depth, here);
        case Assign(_, id, e) =>
          ValueStable(a, b, fns, e, env, depth, here);
          var v := Value(a, fns, e, env, depth, here);
          BlockStable(a, b, fns, name, body[1..], env[id := v.value], depth, v.st);
        case If(line, test, yes, no) =>
          ValueStable(a, b, fns, test, env, depth, here);
          var v := Value(a, fns, test, env, depth, here);
          var w := v.st.(branches := v.st.branches + [Branch(name, line, Truthy(v.value))]);
          var part := if Truthy(v.value) then yes else no;
          BlockStable(a, b, fns, name, part, env, depth, w);
          var exit := Block(a, fns, name, part, env, depth, w);
          if exit.value.returned.None? {
            BlockStable(a, b, fns, name, body[1..], exit.value.env, depth, exit.st);
          }
        case DocString(_) => BlockStable(a, b, fns, name, body[1..], env, depth, here);
        case _ =>
      }
    }
  }
}
