/** Selection of team standards (`retrieve` in app/domain/standards/index.py): required sections
    first and all or nothing, then optional ones greedily by score. Scores are any real numbers and
    `bytes` any size of a list of sections that does not grow when sections are left out. */
module Standards {
  import opened Options

  const MAX_CONTEXT := 12 * 1024
  const MAX_SECTIONS := 12

  /** Sections are named by their position among the candidates. */
  datatype Query = Query(count: nat, required: nat -> bool, score: nat -> real, bytes: seq<nat> -> nat, maxBytes: nat)

  function Cap(q: Query): nat { if q.maxBytes < MAX_CONTEXT then q.maxBytes else MAX_CONTEXT }

  // ---- scored.sort ----

  /** The sort key: required first, higher score first, earlier first. */
  predicate Precedes(q: Query, i: nat, j: nat) {
    if q.required(i) != q.required(j) then q.required(i)
    else if q.score(i) != q.score(j) then q.score(i) > q.score(j)
    else i < j
  }

  function Insert(q: Query, i: nat, s: seq<nat>): (r: seq<nat>)
    ensures |r| == |s| + 1 && forall x :: x in r <==> x == i || x in s
  {
    if s == [] || Precedes(q, i, s[0]) then [i] + s
    else
      assert s == [s[0]] + s[1..];
      [s[0]] + Insert(q, i, s[1..])
  }

  /** The first `n` candidates in key order. */
  function Sorted(q: Query, n: nat): seq<nat> {
    if n == 0 then [] else Insert(q, n - 1, Sorted(q, n - 1))
  }

  ghost predicate InOrder(q: Query, s: seq<nat>) {
    forall a, b :: 0 <= a < b < |s| ==> Precedes(q, s[a], s[b])
  }

  lemma {:induction false} InsertOrders(q: Query, i: nat, s: seq<nat>)
    requires InOrder(q, s) && i !in s
    ensures InOrder(q, Insert(q, i, s))
  {
    if s != [] && !Precedes(q, i, s[0]) {
      var rest := Insert(q, i, s[1..]);
      InsertOrders(q, i, s[1..]);
      forall b | 0 <= b < |rest|
        ensures Precedes(q, s[0], rest[b])
      {
        assert rest[b] in rest;
      }
    }
  }

  /** Sorting gives every candidate once, in strict key order. */
  lemma {:induction false} SortedIs(q: Query, n: nat)
    ensures var s := Sorted(q, n); InOrder(q, s) && |s| == n && forall i: nat :: i in s <==> i < n
  {
    if n != 0 {
      SortedIs(q, n - 1);
      InsertOrders(q, n - 1, Sorted(q, n - 1));
    }
  }

  // ---- The selection ----

  predicate Fallback(q: Query, order: seq<nat>) {
    order != [] && forall i <- order :: !q.required(i) && q.score(i) <= 0.0
  }

  predicate Eligible(q: Query, fallback: bool, i: nat) { q.score(i) > 0.0 || fallback }

  /** One turn of the loop; None is the raised error. */
  function Consider(q: Query, fallback: bool, chosen: seq<nat>, i: nat): Option<seq<nat>> {
    if !q.required(i) && (!Eligible(q, fallback, i) || MAX_SECTIONS <= |chosen|) then Some(chosen)
    else if q.bytes(chosen + [i]) > Cap(q) then (if q.required(i) then None else Some(chosen))
    else Some(chosen + [i])
  }

  function Select(q: Query, fallback: bool, order: seq<nat>): Option<seq<nat>> {
    if order == [] then Some([])
    else match Select(q, fallback, order[..|order| - 1])
      case None => None
      case Some(chosen) => Consider(q, fallback, chosen, order[|order| - 1])
  }

  function Chosen(q: Query): Option<seq<nat>> {
    var order := Sorted(q, q.count);
    Select(q, Fallback(q, order), order)
  }

  lemma {:induction false} SelectFails(q: Query, fallback: bool, order: seq<nat>, k: nat)
    requires k <= |order| && Select(q, fallback, order[..k]).None?
    ensures Select(q, fallback, order).None?
  {
    if k < |order| {
      var n := |order| - 1;
      assert order[..n][..k] == order[..k];
      SelectFails(q, fallback, order[..n], k);
    } else {
      assert order[..k] == order;
    }
  }

  method Retrieve(q: Query) returns (r: Option<seq<nat>>)
    ensures r == Chosen(q)
  {
    var scored := Sorted(q, q.count);
    var fallback := Fallback(q, scored);
    var chosen: seq<nat> := [];
    for k := 0 to |scored|
      invariant Select(q, fallback, scored[..k]) == Some(chosen)
    {
      var item := scored[k];
      assert scored[..k + 1][..k] == scored[..k];
      if !q.required(item) && ((q.score(item) <= 0.0 && !fallback) || |chosen| >= MAX_SECTIONS) {
        continue;
      }
      if q.bytes(chosen + [item]) > Cap(q) {
        if q.required(item) {
          SelectFails(q, fallback, scored, k + 1);
          return None;
        }
        continue;
      }
      chosen := chosen + [item];
    }
    assert scored[..|scored|] == scored;
    r := Some(chosen);
  }

  // ---- Laws ----

  /** Leaving sections out never makes the list larger. */
  ghost predicate Monotone(q: Query) { forall a, b, c :: q.bytes(a + c) <= q.bytes(a + b + c) }

  function RequiredIn(q: Query, s: seq<nat>): seq<nat> {
    if s == [] then []
    else
      var n := |s| - 1;
      RequiredIn(q, s[..n]) + if q.required(s[n]) then [s[n]] else []
  }

  /** All required come before all optional. */
  ghost predicate RequiredFirst(q: Query, s: seq<nat>) {
    forall a, b :: 0 <= a < b < |s| && q.required(s[b]) ==> q.required(s[a])
  }

  lemma Grows(q: Query, a: seq<nat>, b: seq<nat>)
    requires Monotone(q)
    ensures q.bytes(a) <= q.bytes(a + b)
  {
    assert a + b + [] == a + b && a + [] == a;
    assert q.bytes(a + []) <= q.bytes(a + b + []);
  }

  /** Required sections alone: all of them, or the error. */
  lemma {:induction false} RequiredAlone(q: Query, fallback: bool, order: seq<nat>)
    requires Monotone(q) && forall k :: 0 <= k < |order| ==> q.required(order[k])
    ensures Select(q, fallback, order) == if order != [] && q.bytes(order) > Cap(q) then None else Some(order)
    ensures RequiredIn(q, order) == order
  {
    if order != [] {
      var n := |order| - 1;
      RequiredAlone(q, fallback, order[..n]);
      assert order == order[..n] + [order[n]];
      Grows(q, order[..n], [order[n]]);
    }
  }

  /** It raises if and only if the required sections alone are too large; otherwise all of them are
      chosen, in front. */
  lemma {:induction false} RequiredDecide(q: Query, fallback: bool, order: seq<nat>)
    requires RequiredFirst(q, order) && Monotone(q)
    ensures Select(q, fallback, order).None? <==> RequiredIn(q, order) != [] && q.bytes(RequiredIn(q, order)) > Cap(q)
    ensures Select(q, fallback, order).Some? ==> RequiredIn(q, order) <= Select(q, fallback, order).value
  {
    if order != [] {
      var n := |order| - 1;
      if q.required(order[n]) {
        RequiredAlone(q, fallback, order);
      } else {
        RequiredDecide(q, fallback, order[..n]);
        assert RequiredIn(q, order) == RequiredIn(q, order[..n]);
      }
    }
  }

  ghost predicate Refused(q: Query, fallback: bool, chosen: seq<nat>, i: nat) {
    !Eligible(q, fallback, i) || MAX_SECTIONS <= |chosen| || q.bytes(chosen + [i]) > Cap(q)
  }

  /** Within the cap; nothing optional that is not eligible or beyond the twelfth; and whatever was left
      out was not eligible, or the twelve were full, or it would not fit even now. */
  lemma {:induction false} Greedy(q: Query, fallback: bool, order: seq<nat>)
    requires Monotone(q) && Select(q, fallback, order).Some?
    ensures var chosen := Select(q, fallback, order).value;
            && (chosen != [] ==> q.bytes(chosen) <= Cap(q))
            && (forall i <- chosen :: i in order && (q.required(i) || Eligible(q, fallback, i)))
            && (forall k :: MAX_SECTIONS <= k < |chosen| ==> q.required(chosen[k]))
            && forall i <- order :: i !in chosen ==> !q.required(i) && Refused(q, fallback, chosen, i)
  {
    if order != [] {
      var n := |order| - 1;
      var i := order[n];
      Greedy(q, fallback, order[..n]);
      var before, chosen := Select(q, fallback, order[..n]).value, Select(q, fallback, order).value;
      assert order == order[..n] + [i];
      forall j | j in order && j !in chosen
        ensures !q.required(j) && Refused(q, fallback, chosen, j)
      {
        if chosen == before + [i] && j != i {
          assert j in order[..n] && j !in before;
          assert q.bytes(before + [j]) <= q.bytes(before + [i] + [j]);
        }
      }
    }
  }

  /** Chosen sections keep the order in which they were considered. */
  lemma {:induction false} KeepsOrder(q: Query, fallback: bool, order: seq<nat>)
    requires InOrder(q, order) && Select(q, fallback, order).Some?
    ensures var chosen := Select(q, fallback, order).value; (forall i <- chosen :: i in order) && InOrder(q, chosen)
  {
    if order != [] {
      var n := |order| - 1;
      KeepsOrder(q, fallback, order[..n]);
      var before := Select(q, fallback, order[..n]).value;
      assert order == order[..n] + [order[n]];
      forall a | 0 <= a < |before|
        ensures Precedes(q, before[a], order[n])
      {
        assert before[a] in order[..n];
        var k :| 0 <= k < n && order[k] == before[a];
      }
    }
  }

  lemma OrderedRequiredFirst(q: Query, s: seq<nat>)
    requires InOrder(q, s)
    ensures RequiredFirst(q, s)
  {}

  /** The whole selection, for any scores and any monotone size. */
  lemma SelectionLaw(q: Query)
    requires Monotone(q)
    ensures var order := Sorted(q, q.count);
            var required := RequiredIn(q, order);
            && (Chosen(q).None? <==> required != [] && q.bytes(required) > Cap(q))
            && (Chosen(q).Some? ==>
                  var chosen := Chosen(q).value;
                  && InOrder(q, chosen) && required <= chosen
                  && (chosen != [] ==> q.bytes(chosen) <= Cap(q))
                  && (forall k :: MAX_SECTIONS <= k < |chosen| ==> q.required(chosen[k]))
                  && (forall i <- chosen :: i < q.count && (q.required(i) || Eligible(q, Fallback(q, order), i)))
                  && forall i: nat :: i < q.count && i !in chosen ==>
                       !q.required(i) && Refused(q, Fallback(q, order), chosen, i))
  {
    var order := Sorted(q, q.count);
    SortedIs(q, q.count);
    OrderedRequiredFirst(q, order);
    RequiredDecide(q, Fallback(q, order), order);
    if Chosen(q).Some? {
      Greedy(q, Fallback(q, order), order);
      KeepsOrder(q, Fallback(q, order), order);
    }
  }
}
