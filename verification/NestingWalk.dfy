/** Rule COM-003 (nesting of control statements) and the capped list of findings
    (app/domain/analysis/analyzer.py, lines 45-55 and 243-268): a walk with an explicit stack, against
    the recursive definition of nesting. The syntax tree is given. */
module NestingWalk {
  import opened Options

  /** `Function`, `If`, `Elif` and `OtherControl` stand for the node types of the two tables, `Else`
      for `else_clause`. */
  datatype Kind = Function | If | Elif | OtherControl | Else | Other

  /** A node with its named children, and which of them is its `alternative`. Nodes have identity. */
  datatype Tree = Tree(id: nat, kind: Kind, start: nat, end: nat, alternative: Option<nat>, children: seq<Tree>)

  // ---- The definition ----

  /** A node with the nodes above it, the root first. */
  type Chain = c: seq<Tree> | c != [] witness [Tree(0, Other, 0, 0, None, [])]

  function Node(c: Chain): Tree { c[|c| - 1] }

  predicate IsControl(k: Kind) { k.If? || k.Elif? || k.OtherControl? }

  /** Continues the control above it: `elif`, or an `if` that is all of an else branch. */
  predicate Chained(node: Tree, parent: Option<Tree>) {
    node.kind.Elif? || (node.kind.If? && parent.Some?
                        && (parent.value.kind.Else? || (parent.value.kind.If? && IsAlternative(parent.value, node))))
  }

  predicate IsAlternative(parent: Tree, node: Tree) {
    parent.alternative.Some? && parent.alternative.value == node.id
  }

  function Parent(c: Chain): Option<Tree> { if |c| == 1 then None else Some(c[|c| - 2]) }

  /** Does the node open a level of its own? */
  predicate Opens(c: Chain) { IsControl(Node(c).kind) && !Chained(Node(c), Parent(c)) }

  /** Controls open at the node and above it, up to the nearest function. */
  function Nesting(c: Chain): nat {
    if Node(c).kind.Function? then 0
    else (if |c| == 1 then 0 else Nesting(c[..|c| - 1])) + if Opens(c) then 1 else 0
  }

  const LIMIT := 5

  predicate TooDeep(c: Chain) { Opens(c) && Nesting(c) == LIMIT }

  /** The node and all below it, in preorder. */
  function Preorder(c: Chain): seq<Chain>
    decreases Node(c), 1
  {
    [c] + Below(c, 0)
  }

  function Child(c: Chain, k: nat): Chain
    requires k < |Node(c).children|
  {
    c + [Node(c).children[k]]
  }

  /** All below the node, from its child `k` on. */
  function Below(c: Chain, k: nat): seq<Chain>
    requires k <= |Node(c).children|
    decreases Node(c), 0, |Node(c).children| - k
  {
    if k == |Node(c).children| then [] else Preorder(Child(c, k)) + Below(c, k + 1)
  }

  function Nodes(cs: seq<Chain>): seq<Tree> { if cs == [] then [] else Nodes(cs[..|cs| - 1]) + [Node(cs[|cs| - 1])] }

  /** The nodes among these that are nested five deep and open the fifth level, in order. */
  function Deep(cs: seq<Chain>): seq<Tree> {
    if cs == [] then []
    else
      var c := cs[|cs| - 1];
      Deep(cs[..|cs| - 1]) + if TooDeep(c) then [Node(c)] else []
  }

  // ---- Findings, capped ----

  datatype Finding = Finding(rule: string, start: nat, end: nat)

  const MAX_FINDINGS := 100

  /** The findings in the order in which they first appear. */
  function Distinct(fs: seq<Finding>): seq<Finding> {
    if fs == [] then []
    else
      var rest, f := Distinct(fs[..|fs| - 1]), fs[|fs| - 1];
      if f in rest then rest else rest + [f]
  }

  function Capped(fs: seq<Finding>): seq<Finding> { if |fs| <= MAX_FINDINGS then fs else fs[..MAX_FINDINGS] }

  class Evaluation {
    var findings: seq<Finding>
    var seen: set<Finding>
    var limit: bool
    ghost var emitted: seq<Finding>

    /** The first hundred distinct findings, and whether there were more. */
    ghost predicate Valid()
      reads this
    {
      && seen == (set f | f in emitted)
      && findings == Capped(Distinct(emitted))
      && limit == (|Distinct(emitted)| > MAX_FINDINGS)
    }

    constructor ()
      ensures Valid() && emitted == []
    {
      findings, seen, limit, emitted := [], {}, false, [];
    }

    method Add(rule: string, start: nat, end: nat)
      requires Valid()
      modifies this
      ensures Valid() && emitted == old(emitted) + [Finding(rule, start, end)]
    {
      var key := Finding(rule, start, end);
      DistinctHas(emitted);
      assert (emitted + [key])[..|emitted|] == emitted;
      emitted := emitted + [key];
      if key in seen {
        return;
      }
      seen := seen + {key};
      if |findings| >= MAX_FINDINGS {
        limit := true;
      } else {
        findings := findings + [key];
      }
    }
  }

  lemma {:induction false} DistinctHas(fs: seq<Finding>)
    ensures forall f :: f in Distinct(fs) <==> f in fs
    ensures forall i, j :: 0 <= i < j < |Distinct(fs)| ==> Distinct(fs)[i] != Distinct(fs)[j]
  {
    if fs != [] {
      DistinctHas(fs[..|fs| - 1]);
      assert fs == fs[..|fs| - 1] + [fs[|fs| - 1]];
    }
  }

  // ---- The walk ----

  function Report(t: Tree): Finding { Finding("COM-003", t.start, t.end) }

  function Reports(ts: seq<Tree>): seq<Finding> {
    if ts == [] then [] else Reports(ts[..|ts| - 1]) + [Report(ts[|ts| - 1])]
  }

  function Size(t: Tree): nat
    decreases t, 1
  {
    1 + Sizes(t.children)
  }

  function Sizes(ts: seq<Tree>): nat
    decreases ts, 0
  {
    if ts == [] then 0 else Size(ts[0]) + Sizes(ts[1..])
  }

  datatype Frame = Frame(node: Tree, parent: Option<Tree>, depth: nat)

  /** What a chain looks like on the stack. */
  function FrameOf(c: Chain): Frame { Frame(Node(c), Parent(c), if |c| == 1 then 0 else Nesting(c[..|c| - 1])) }

  function Frames(cs: seq<Chain>): (r: seq<Frame>)
    ensures |r| == |cs| && forall i :: 0 <= i < |cs| ==> r[i] == FrameOf(cs[i])
  {
    seq(|cs|, i requires 0 <= i < |cs| => FrameOf(cs[i]))
  }

  /** Still to visit: the top of the stack is its end. */
  function Pending(cs: seq<Chain>): seq<Chain> {
    if cs == [] then [] else Preorder(cs[|cs| - 1]) + Pending(cs[..|cs| - 1])
  }

  function PendingSize(cs: seq<Chain>): nat {
    if cs == [] then 0 else Size(Node(cs[|cs| - 1])) + PendingSize(cs[..|cs| - 1])
  }

  /** The chains of the children from `k` on, last child first. */
  function Reversed(c: Chain, k: nat): seq<Chain>
    requires k <= |Node(c).children|
    decreases |Node(c).children| - k
  {
    if k == |Node(c).children| then [] else Reversed(c, k + 1) + [Child(c, k)]
  }

  /** One more chain on top. */
  lemma PendingNext(cs: seq<Chain>, c: Chain)
    ensures Pending(cs + [c]) == Preorder(c) + Pending(cs)
    ensures PendingSize(cs + [c]) == Size(Node(c)) + PendingSize(cs)
  {
    assert (cs + [c])[..|cs|] == cs;
  }

  lemma {:induction false} PushedPending(cs: seq<Chain>, c: Chain, k: nat)
    requires k <= |Node(c).children|
    ensures Pending(cs + Reversed(c, k)) == Below(c, k) + Pending(cs)
    ensures PendingSize(cs + Reversed(c, k)) == Sizes(Node(c).children[k..]) + PendingSize(cs)
    decreases |Node(c).children| - k
  {
    if k == |Node(c).children| {
      assert cs + Reversed(c, k) == cs && Below(c, k) + Pending(cs) == Pending(cs);
    } else {
      PushedPending(cs, c, k + 1);
      var rest := cs + Reversed(c, k + 1);
      assert cs + Reversed(c, k) == rest + [Child(c, k)];
      PendingNext(rest, Child(c, k));
      Regroup([], Preorder(Child(c, k)), Below(c, k + 1), Pending(cs));
      assert Node(c).children[k..][1..] == Node(c).children[k + 1..];
    }
  }

  /** Reported nodes of what has been visited. */
  lemma DeepNext(cs: seq<Chain>, c: Chain)
    ensures Nodes(cs + [c]) == Nodes(cs) + [Node(c)]
    ensures Deep(cs + [c]) == Deep(cs) + if TooDeep(c) then [Node(c)] else []
  {
    assert (cs + [c])[..|cs|] == cs;
  }

  lemma EmittedNext(before: seq<Finding>, cs: seq<Chain>, c: Chain)
    ensures before + Reports(Deep(cs)) + (if TooDeep(c) then [Report(Node(c))] else [])
              == before + Reports(Deep(cs + [c]))
  {
    DeepNext(cs, c);
    var ts, t := Deep(cs), Node(c);
    if TooDeep(c) {
      assert (ts + [t])[..|ts|] == ts;
      assert before + (Reports(ts) + [Report(t)]) == before + Reports(ts) + [Report(t)];
    } else {
      assert Deep(cs + [c]) == ts;
    }
  }

  lemma Regroup<T>(a: seq<T>, b: seq<T>, c: seq<T>, d: seq<T>)
    ensures a + (b + c + d) == a + b + (c + d)
    ensures b + (c + d) == b + c + d
  {}

  /** Popping a chain and pushing its children moves one chain from pending to done. */
  lemma PopPush(all: seq<Chain>, done: seq<Chain>, cs: seq<Chain>, c: Chain, rest: seq<Chain>)
    requires all == done + Pending(cs) && cs != [] && c == cs[|cs| - 1] && rest == cs[..|cs| - 1]
    ensures all == done + [c] + Pending(rest + Reversed(c, 0))
    ensures PendingSize(rest + Reversed(c, 0)) < PendingSize(cs)
  {
    PushedPending(rest, c, 0);
    assert Node(c).children[0..] == Node(c).children;
    Regroup(done, [c], Below(c, 0), Pending(rest));
  }

  method PushChildren(stack: seq<Frame>, node: Tree, depth: nat, ghost cs: seq<Chain>, ghost c: Chain)
    returns (pushed: seq<Frame>)
    requires stack == Frames(cs) && node == Node(c) && depth == Nesting(c)
    ensures pushed == Frames(cs + Reversed(c, 0))
  {
    pushed := stack;
    var i := |node.children|;
    assert cs + Reversed(c, i) == cs;
    while i > 0
      invariant 0 <= i <= |node.children|
      invariant pushed == Frames(cs + Reversed(c, i))
    {
      i := i - 1;
      assert cs + Reversed(c, i) == cs + Reversed(c, i + 1) + [Child(c, i)];
      assert Child(c, i)[..|c|] == c;
      pushed := pushed + [Frame(node.children[i], Some(node), depth)];
    }
  }

  /** Visits the tree in exact preorder and emits COM-003 for exactly the nodes that open the fifth
      level of nesting within the nearest function. */
  method EvaluateNesting(root: Tree, out: Evaluation) returns (nodes: seq<Tree>)
    requires out.Valid()
    modifies out
    ensures out.Valid()
    ensures nodes == Nodes(Preorder([root]))
    ensures out.emitted == old(out.emitted) + Reports(Deep(Preorder([root])))
  {
    nodes := [];
    var stack := [Frame(root, None, 0)];
    ghost var all, done, cs: seq<Chain> := Preorder([root]), [], [[root]];
    assert all == done + Pending(cs) by {
      assert cs[..0] == [] && Pending([]) == [] && Preorder([root]) + [] == Preorder([root]);
    }
    assert out.emitted == old(out.emitted) + Reports(Deep(done));
    while stack != []
      invariant out.Valid()
      invariant stack == Frames(cs) && all == done + Pending(cs)
      invariant nodes == Nodes(done) && out.emitted == old(out.emitted) + Reports(Deep(done))
      decreases PendingSize(cs)
    {
      ghost var c, rest := cs[|cs| - 1], cs[..|cs| - 1];
      var Frame(node, parent, above) := stack[|stack| - 1];
      stack := stack[..|stack| - 1];
      assert stack == Frames(rest);
      PopPush(all, done, cs, c, rest);
      nodes := nodes + [node];
      var depth := Visit(node, parent, above, c, out);
      DeepNext(done, c);
      EmittedNext(old(out.emitted), done, c);
      stack := PushChildren(stack, node, depth, rest, c);
      done := done + [c];
      cs := rest + Reversed(c, 0);
    }
    assert done + [] == done;
  }

  method Visit(node: Tree, parent: Option<Tree>, above: nat, ghost c: Chain, out: Evaluation) returns (depth: nat)
    requires out.Valid() && Frame(node, parent, above) == FrameOf(c)
    modifies out
    ensures out.Valid() && depth == Nesting(c)
    ensures out.emitted == old(out.emitted) + if TooDeep(c) then [Report(node)] else []
  {
    depth := above;
    if node.kind.Function? {
      depth := 0;
    }
    if IsControl(node.kind) {
      var chained := Chained(node, parent);
      if !chained {
        depth := depth + 1;
      }
      if depth == LIMIT && !chained {
        out.Add("COM-003", node.start, node.end);
      }
    }
  }

  // ---- What the list of findings is ----

  lemma {:induction false} DistinctPrefix(fs: seq<Finding>, k: nat)
    requires k <= |fs|
    ensures Distinct(fs[..k]) <= Distinct(fs)
  {
    if k < |fs| {
      var n := |fs| - 1;
      assert fs[..n][..k] == fs[..k];
      DistinctPrefix(fs[..n], k);
    } else {
      assert fs[..k] == fs;
    }
  }

  /** A finding once listed stays where it is, and none is listed twice. */
  lemma CappedGrows(fs: seq<Finding>, k: nat)
    requires k <= |fs|
    ensures Capped(Distinct(fs[..k])) <= Capped(Distinct(fs))
    ensures forall i, j :: 0 <= i < j < |Capped(Distinct(fs))| ==> Capped(Distinct(fs))[i] != Capped(Distinct(fs))[j]
    ensures (forall f <- fs :: f in Capped(Distinct(fs))) <==> |Distinct(fs)| <= MAX_FINDINGS
  {
    DistinctPrefix(fs, k);
    DistinctHas(fs);
    if |Distinct(fs)| > MAX_FINDINGS {
      var f := Distinct(fs)[MAX_FINDINGS];
      assert f in Distinct(fs) && f in fs;
      assert f !in Capped(Distinct(fs));
    }
  }

  /** Every node is visited once: as many as there are, each under its own chain. */
  lemma {:induction false} VisitsAll(c: Chain)
    ensures |Preorder(c)| == Size(Node(c))
    decreases Node(c), 1
  {
    VisitsBelow(c, 0);
  }

  lemma {:induction false} VisitsBelow(c: Chain, k: nat)
    requires k <= |Node(c).children|
    ensures |Below(c, k)| == Sizes(Node(c).children[k..])
    decreases Node(c), 0, |Node(c).children| - k
  {
    if k < |Node(c).children| {
      VisitsAll(Child(c, k));
      VisitsBelow(c, k + 1);
      assert Node(c).children[k..][1..] == Node(c).children[k + 1..];
    }
  }
}
