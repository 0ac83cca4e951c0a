/** The evaluator object, against that specification. */
module Evaluator {
  import opened Options
  import opened PythonSubset
  import opened Projecting

  class Projection {
    const functions: seq<Fn>
    var steps: nat
    var branches: seq<Branch>
    var visited: set<nat>

    ghost function View(): State
      reads this
    {
      State(steps, branches, visited)
    }

    constructor (functions: seq<Fn>)
      ensures this.functions == functions && View() == START
    {
      this.functions := functions;
      steps, branches, visited := 0, [], {};
    }

    /** What a method leaves behind when it returns a value; when it gives up, only that it does. */
    ghost predicate Yields<T>(r: Option<T>, ret: Ret<T>)
      reads this
    {
      match ret
      case Ok(v, st) => r == Some(v) && View() == st
      case Unsupported => r == None
    }

    method Value(node: Expr, bindings: Env, depth: nat) returns (r: Option<PyValue>)
      modifies this
      ensures Yields(r, Projecting.Value(LIMITS, functions, node, bindings, depth, old(View())))
      decreases Room(LIMITS, depth), 0, node, 1
    {
      steps := steps + 1;
      if steps > LIMITS.steps || depth > LIMITS.depth {
        return None;
      }
      if node.DictDisplay? && |node.items| <= 16 {
        if !StringKeys(node.items) {
          return None;
        }
        var vs := Values(node.items, bindings, depth);
        if vs.None? {
          return None;
        }
        var m := Dict(vs.value);
        return if m.Some? then Some(VDict(m.value)) else None;
      }
      if node.ListDisplay? && |node.elements| <= 16 {
        var vs := Values(node.elements, bindings, depth);
        return if vs.Some? then Some(VList(vs.value)) else None;
      }
      if node.Junct? && node.values != [] {
        r := JunctValue(node.j, node.values, bindings, depth);
        return;
      }
      if node.Compare? {
        var x := Value(node.first, bindings, depth);
        if x.None? {
          return None;
        }
        var y := Value(node.second, bindings, depth);
        if y.None? {
          return None;
        }
        var b := Compared(node.cmp, x.value, y.value);
        return if b.Some? then Some(VBool(b.value)) else None;
      }
      if node.Method? && node.attr == "get" && !node.keyworded {
        var target := Value(node.target, bindings, depth);
        if target.None? {
          return None;
        }
        var args := Values(node.margs, bindings, depth);
        return if args.Some? then Got(target.value, args.value) else None;
      }
      if node.Call? && Find(functions, node.name).Some? {
        r := CallByName(node, bindings, depth);
        return;
      }
      r := Interpret(node, bindings, 0);
    }

    method CallByName(node: Expr, bindings: Env, depth: nat) returns (r: Option<PyValue>)
      requires node.Call? && Find(functions, node.name).Some?
      requires 0 < steps <= LIMITS.steps && depth <= LIMITS.depth
      modifies this
      ensures Yields(r,
                     Projecting.Value(LIMITS, functions, node, bindings, depth, old(View()).(steps := old(steps) - 1)))
      decreases Room(LIMITS, depth), 0, node, 0
    {
      if node.name in bindings || None in node.keys {
        return None;
      }
      var args := Values(node.args, bindings, depth);
      if args.None? {
        return None;
      }
      var given := Values(node.keyValues, bindings, depth);
      if given.None? {
        return None;
      }
      var kwargs := Keywords(node.keys, given.value);
      if kwargs.None? {
        return None;
      }
      r := Call(node.name, args.value, kwargs.value, depth + 1);
    }

    method Values(nodes: seq<Expr>, bindings: Env, depth: nat) returns (r: Option<seq<PyValue>>)
      modifies this
      ensures Yields(r, Projecting.Values(LIMITS, functions, nodes, bindings, depth, old(View())))
      decreases Room(LIMITS, depth), 0, nodes, 0
    {
      if nodes == [] {
        return Some([]);
      }
      var first := Value(nodes[0], bindings, depth);
      if first.None? {
        return None;
      }
      var rest := Values(nodes[1..], bindings, depth);
      return if rest.Some? then Some([first.value] + rest.value) else None;
    }

    method JunctValue(j: Junction, nodes: seq<Expr>, bindings: Env, depth: nat) returns (r: Option<PyValue>)
      requires nodes != []
      modifies this
      ensures Yields(r, Projecting.JunctValue(LIMITS, functions, j, nodes, bindings, depth, old(View())))
      decreases Room(LIMITS, depth), 0, nodes, 0
    {
      r := Value(nodes[0], bindings, depth);
      var i := 1;
      while i < |nodes| && r.Some? && !Decides(j, r.value)
        invariant 1 <= i <= |nodes|
        invariant var all := Projecting.JunctValue(LIMITS, functions, j, nodes, bindings, depth, old(View()));
                  if r.None? then all.Unsupported?
                  else all == if i == |nodes| || Decides(j, r.value) then Ok(r.value, View())
                              else Projecting.JunctValue(LIMITS, functions, j, nodes[i..], bindings, depth, View())
      {
        r := Value(nodes[i], bindings, depth);
        i := i + 1;
      }
    }

    method Call(name: Ident, args: seq<PyValue>, kwargs: map<Ident, PyValue>, depth: nat)
      returns (r: Option<PyValue>)
      modifies this
      ensures Yields(r, Called(LIMITS, functions, name, args, kwargs, depth, old(View())))
      decreases Room(LIMITS, depth), 3
    {
      if depth > LIMITS.depth || Find(functions, name).None? {
        return None;
      }
      var f := functions[Find(functions, name).value];
      if !Callable(f, |args|, kwargs.Keys) {
        return None;
      }
      var ds := Values(f.defaults, map[], depth);
      if ds.None? {
        return None;
      }
      var bindings := Zip(f.params[|f.params| - |ds.value|..], ds.value);
      bindings := bindings + Zip(f.params[..|args|], args);
      bindings := bindings + kwargs;
      r := Enter(name, f, bindings, depth);
    }

    method Enter(name: Ident, f: Fn, bindings: Env, depth: nat) returns (r: Option<PyValue>)
      modifies this
      ensures Yields(r, RunBody(LIMITS, functions, name, f, bindings, depth, old(View())))
      decreases Room(LIMITS, depth), 2
    {
      if bindings.Keys != set p | p in f.params {
        return None;
      }
      var exit := Block(name, f.body, bindings, depth);
      return if exit.Some? then exit.value.returned else None;
    }

    method Block(name: Ident, nodes: seq<Stmt>, start: Env, depth: nat) returns (r: Option<Exit>)
      modifies this
      ensures Yields(r, Projecting.Block(LIMITS, functions, name, nodes, start, depth, old(View())))
      decreases Room(LIMITS, depth), 1, nodes
    {
      var bindings := start;
      var i := 0;
      while i < |nodes|
        invariant 0 <= i <= |nodes|
        invariant Projecting.Block(LIMITS, functions, name, nodes, start, depth, old(View()))
                  == Projecting.Block(LIMITS, functions, name, nodes[i..], bindings, depth, View())
      {
        var node := nodes[i];
        visited := visited + {node.line};
        steps := steps + 1;
        if steps > LIMITS.steps {
          return None;
        }
        if node.Return? && node.value.Some? {
          var v := Value(node.value.value, bindings, depth);
          return if v.Some? then Some(Exit(v, bindings)) else None;
        }
        if node.Assign? {
          var v := Value(node.rhs, bindings, depth);
          if v.None? {
            return None;
          }
          bindings := bindings[node.id := v.value];
        } else if node.If? {
          var v := Value(node.test, bindings, depth);
          if v.None? {
            return None;
          }
          var taken := Truthy(v.value);
          branches := branches + [Branch(name, node.line, taken)];
          var exit := Block(name, if taken then node.body else node.orelse, bindings, depth);
          if exit.None? || exit.value.returned.Some? {
            return exit;
          }
          bindings := exit.value.env;
        } else if !node.DocString? {
          return None;
        }
        assert nodes[i..][1..] == nodes[i + 1..];
        i := i + 1;
      }
      r := Some(Exit(None, bindings));
    }
  }
}
