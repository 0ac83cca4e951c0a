/** Fair merging of context candidates (`pool_for` and `prioritized` in
    app/domain/review/context_plan.py): protected items first, then round robin over the queries. */
module ContextPlan {
  import opened Options
  import opened Sorting

  // ---- zip_longest ----

  /** Row `j`: entry `j` of each order that has one. */
  function Row<T>(orders: seq<seq<T>>, j: nat): seq<T> {
    if orders == [] then []
    else
      var last := orders[|orders| - 1];
      Row(orders[..|orders| - 1], j) + if j < |last| then [last[j]] else []
  }

  /** Rows 0 to n-1, one after another. */
  function Rows<T>(orders: seq<seq<T>>, n: nat): seq<T> {
    if n == 0 then [] else Rows(orders, n - 1) + Row(orders, n - 1)
  }

  function Longest<T>(orders: seq<seq<T>>): nat {
    if orders == [] then 0
    else
      var rest, n := Longest(orders[..|orders| - 1]), |orders[|orders| - 1]|;
      if rest < n then n else rest
  }

  function Interleaved<T>(orders: seq<seq<T>>): seq<T> { Rows(orders, Longest(orders)) }

  lemma {:induction false} RowSize<T>(orders: seq<seq<T>>, j: nat)
    ensures |Row(orders, j)| <= |orders|
  {
    if orders != [] {
      RowSize(orders[..|orders| - 1], j);
    }
  }

  lemma {:induction false} RowPrefix<T>(orders: seq<seq<T>>, j: nat, g: nat)
    requires g <= |orders|
    ensures Row(orders[..g], j) <= Row(orders, j)
  {
    if g < |orders| {
      var n := |orders| - 1;
      assert orders[..n][..g] == orders[..g];
      RowPrefix(orders[..n], j, g);
    } else {
      assert orders[..g] == orders;
    }
  }

  /** The loops' view of a row: one order after another. */
  lemma RowNext<T>(orders: seq<seq<T>>, j: nat, g: nat, done: seq<T>)
    requires g < |orders|
    ensures done + Row(orders[..0], j) == done
    ensures var before, after := done + Row(orders[..g], j), done + Row(orders[..g + 1], j);
            after == if j < |orders[g]| then before + [orders[g][j]] else before
    ensures orders[..|orders|] == orders
  {
    assert orders[..g + 1][..g] == orders[..g];
  }

  /** Entry `j` of order `g` is among the first `g + 1` of its row. */
  lemma {:induction false} RowHolds<T>(orders: seq<seq<T>>, j: nat, g: nat) returns (k: nat)
    requires g < |orders| && j < |orders[g]|
    ensures k <= g && k < |Row(orders, j)| && Row(orders, j)[k] == orders[g][j]
  {
    RowPrefix(orders, j, g + 1);
    RowSize(orders[..g], j);
    assert orders[..g + 1][..g] == orders[..g];
    k := |Row(orders[..g], j)|;
  }

  lemma {:induction false} RowsSize<T>(orders: seq<seq<T>>, n: nat)
    ensures |Rows(orders, n)| <= n * |orders|
  {
    if n != 0 {
      RowsSize(orders, n - 1);
      RowSize(orders, n - 1);
      assert n * |orders| == (n - 1) * |orders| + |orders|;
    }
  }

  lemma {:induction false} RowsPrefix<T>(orders: seq<seq<T>>, m: nat, n: nat)
    requires m <= n
    ensures Rows(orders, m) <= Rows(orders, n)
  {
    if m < n {
      RowsPrefix(orders, m, n - 1);
    }
  }

  lemma {:induction false} WithinLongest<T>(orders: seq<seq<T>>, g: nat)
    requires g < |orders|
    ensures |orders[g]| <= Longest(orders)
  {
    if g < |orders| - 1 {
      WithinLongest(orders[..|orders| - 1], g);
    }
  }

  /** Round robin: entry `j` of order `g` comes after at most `j` full rounds and `g` more entries. */
  lemma Position<T>(orders: seq<seq<T>>, g: nat, j: nat) returns (k: nat)
    requires g < |orders| && j < |orders[g]|
    ensures k <= j * |orders| + g && k < |Interleaved(orders)| && Interleaved(orders)[k] == orders[g][j]
  {
    WithinLongest(orders, g);
    RowsPrefix(orders, j + 1, Longest(orders));
    var i := RowHolds(orders, j, g);
    k := |Rows(orders, j)| + i;
    assert Rows(orders, j + 1)[k] == Row(orders, j)[i];
    RowsSize(orders, j);
  }

  ghost predicate Occurs<T>(orders: seq<seq<T>>, x: T) {
    exists g, j :: 0 <= g < |orders| && 0 <= j < |orders[g]| && orders[g][j] == x
  }

  lemma {:induction false} RowFrom<T>(orders: seq<seq<T>>, j: nat, x: T)
    requires x in Row(orders, j)
    ensures Occurs(orders, x)
  {
    var n := |orders| - 1;
    if x in Row(orders[..n], j) {
      RowFrom(orders[..n], j, x);
      var g, i :| 0 <= g < n && 0 <= i < |orders[..n][g]| && orders[..n][g][i] == x;
      assert orders[g][i] == x;
    } else {
      assert orders[n][j] == x;
    }
  }

  lemma {:induction false} RowsFrom<T>(orders: seq<seq<T>>, n: nat, x: T)
    requires x in Rows(orders, n)
    ensures Occurs(orders, x)
  {
    if x in Rows(orders, n - 1) {
      RowsFrom(orders, n - 1, x);
    } else {
      RowFrom(orders, n - 1, x);
    }
  }

  /** Interleaving neither loses nor invents entries. */
  lemma SameEntries<T>(orders: seq<seq<T>>, x: T)
    ensures x in Interleaved(orders) <==> Occurs(orders, x)
  {
    if x in Interleaved(orders) {
      RowsFrom(orders, Longest(orders), x);
    }
    if Occurs(orders, x) {
      var g, j :| 0 <= g < |orders| && 0 <= j < |orders[g]| && orders[g][j] == x;
      var k := Position(orders, g, j);
    }
  }

  // ---- prioritized ----

  datatype Candidate = Candidate(path: string, numbers: seq<nat>, groups: seq<nat>, protected: bool)

  function ProtectedOf(pool: seq<Candidate>): seq<nat> {
    if pool == [] then [] else ProtectedOf(pool[..|pool| - 1]) + if pool[|pool| - 1].protected then [|pool| - 1] else []
  }

  /** Appending each entry that is not there yet. */
  function AddNew(start: seq<nat>, xs: seq<nat>): seq<nat> {
    if xs == [] then start
    else
      var rest, x := AddNew(start, xs[..|xs| - 1]), xs[|xs| - 1];
      if x in rest then rest else rest + [x]
  }

  function Prioritized(pool: seq<Candidate>, orders: seq<seq<nat>>): seq<nat> {
    AddNew(ProtectedOf(pool), Interleaved(orders))
  }

  lemma AddNewSnoc(start: seq<nat>, xs: seq<nat>, x: nat)
    ensures AddNew(start, xs + [x]) == if x in AddNew(start, xs) then AddNew(start, xs) else AddNew(start, xs) + [x]
  {
    assert (xs + [x])[..|xs|] == xs;
  }

  method Prioritize(pool: seq<Candidate>, orders: seq<seq<nat>>) returns (result: seq<nat>)
    ensures result == Prioritized(pool, orders)
  {
    result := [];
    for i := 0 to |pool|
      invariant result == ProtectedOf(pool[..i])
    {
      assert pool[..i + 1][..i] == pool[..i];
      if pool[i].protected {
        result := result + [i];
      }
    }
    assert pool[..|pool|] == pool;
    ghost var start := result;
    for j := 0 to Longest(orders)
      invariant result == AddNew(start, Rows(orders, j))
    {
      result := AddRow(orders, j, result, start, Rows(orders, j));
    }
  }

  method AddRow(orders: seq<seq<nat>>, j: nat, given: seq<nat>, ghost start: seq<nat>, ghost done: seq<nat>)
    returns (result: seq<nat>)
    requires given == AddNew(start, done)
    ensures result == AddNew(start, done + Row(orders, j))
  {
    result := given;
    assert done + Row(orders[..0], j) == done;
    for g := 0 to |orders|
      invariant result == AddNew(start, done + Row(orders[..g], j))
    {
      RowNext(orders, j, g, done);
      if j < |orders[g]| {
        var index := orders[g][j];
        AddNewSnoc(start, done + Row(orders[..g], j), index);
        if index !in result {
          result := result + [index];
        }
      }
    }
    assert orders[..|orders|] == orders;
  }

  ghost predicate Distinct(s: seq<nat>) { forall i, j :: 0 <= i < j < |s| ==> s[i] != s[j] }

  lemma {:induction false} ProtectedIs(pool: seq<Candidate>)
    ensures forall i: nat :: i in ProtectedOf(pool) <==> i < |pool| && pool[i].protected
  {
    if pool != [] {
      var n := |pool| - 1;
      ProtectedIs(pool[..n]);
      forall i: nat
        ensures i in ProtectedOf(pool) <==> i < |pool| && pool[i].protected
      {
        assert i in ProtectedOf(pool[..n]) <==> i < n && pool[i].protected;
      }
    }
  }

  lemma {:induction false} ProtectedAscend(pool: seq<Candidate>)
    ensures forall i, j :: 0 <= i < j < |ProtectedOf(pool)| ==> ProtectedOf(pool)[i] < ProtectedOf(pool)[j]
  {
    if pool != [] {
      var rest := ProtectedOf(pool[..|pool| - 1]);
      ProtectedAscend(pool[..|pool| - 1]);
      ProtectedIs(pool[..|pool| - 1]);
      assert forall k :: 0 <= k < |rest| ==> rest[k] in rest;
    }
  }

  lemma {:induction false} AddNewIs(start: seq<nat>, xs: seq<nat>)
    requires Distinct(start)
    ensures var r := AddNew(start, xs);
            Distinct(r) && start <= r && |r| <= |start| + |xs| && forall x :: x in r <==> x in start || x in xs
  {
    if xs != [] {
      var n := |xs| - 1;
      AddNewIs(start, xs[..n]);
      assert xs == xs[..n] + [xs[n]];
    }
  }

  lemma {:induction false} AddNewPrefix(start: seq<nat>, xs: seq<nat>, k: nat)
    requires k <= |xs|
    ensures AddNew(start, xs[..k]) <= AddNew(start, xs)
  {
    if k < |xs| {
      var n := |xs| - 1;
      assert xs[..n][..k] == xs[..k];
      AddNewPrefix(start, xs[..n], k);
    } else {
      assert xs[..k] == xs;
    }
  }

  /** Exactly the protected and the ordered items, each once, the protected ones first and in order. */
  lemma PrioritizedCovers(pool: seq<Candidate>, orders: seq<seq<nat>>)
    ensures var r := Prioritized(pool, orders);
            && Distinct(r) && ProtectedOf(pool) <= r
            && forall x: nat :: x in r <==> (x < |pool| && pool[x].protected) || Occurs(orders, x)
  {
    ProtectedIs(pool);
    ProtectedAscend(pool);
    AddNewIs(ProtectedOf(pool), Interleaved(orders));
    forall x: nat
      ensures x in Interleaved(orders) <==> Occurs(orders, x)
    {
      SameEntries(orders, x);
    }
  }

  /** After the protected ones there are none. */
  lemma PrioritizedSplits(pool: seq<Candidate>, orders: seq<seq<nat>>) returns (rest: seq<nat>)
    ensures Prioritized(pool, orders) == ProtectedOf(pool) + rest
    ensures forall i :: 0 <= i < |rest| ==> rest[i] < |pool| ==> !pool[rest[i]].protected
  {
    var all, first := Prioritized(pool, orders), ProtectedOf(pool);
    PrioritizedCovers(pool, orders);
    rest := all[|first|..];
    assert all == first + rest;
    forall i | 0 <= i < |rest| && rest[i] < |pool|
      ensures !pool[rest[i]].protected
    {
      NotAmongFirst(all, first, rest, i);
      ProtectedIs(pool);
    }
  }

  lemma NotAmongFirst(all: seq<nat>, first: seq<nat>, rest: seq<nat>, i: nat)
    requires Distinct(all) && all == first + rest && i < |rest|
    ensures rest[i] !in first
  {
    assert all[|first| + i] == rest[i];
    assert forall k :: 0 <= k < |first| ==> all[k] == first[k];
  }

  /** The fair share: entry `j` of order `g` stands at most `j` full rounds and `g` places after the
      protected ones. */
  lemma PrioritizedIsFair(pool: seq<Candidate>, orders: seq<seq<nat>>, g: nat, j: nat)
    requires g < |orders| && j < |orders[g]|
    ensures exists p :: 0 <= p < |Prioritized(pool, orders)| && Prioritized(pool, orders)[p] == orders[g][j]
                        && p <= |ProtectedOf(pool)| + j * |orders| + g
  {
    var start, xs := ProtectedOf(pool), Interleaved(orders);
    var k := Position(orders, g, j);
    ProtectedAscend(pool);
    AddNewIs(start, xs[..k + 1]);
    AddNewPrefix(start, xs, k + 1);
    assert xs[..k + 1][k] == orders[g][j];
    var part := AddNew(start, xs[..k + 1]);
    var p :| 0 <= p < |part| && part[p] == orders[g][j];
    assert Prioritized(pool, orders)[p] == orders[g][j];
  }

  // ---- pool_for ----

  const MAX_CANDIDATES := 24

  datatype Key = Key(path: string, numbers: seq<nat>)

  function KeyOf(c: Candidate): Key { Key(c.path, c.numbers) }

  function Groups(c: Candidate): set<nat> { set g | g in c.groups }

  /** The candidate under a key, in a dict kept in insertion order. */
  function Lookup(merged: seq<Candidate>, key: Key): (r: Option<nat>)
    ensures r.Some? ==> r.value < |merged| && KeyOf(merged[r.value]) == key
    ensures r.None? ==> forall c <- merged :: KeyOf(c) != key
  {
    if merged == [] then None
    else if KeyOf(merged[|merged| - 1]) == key then Some(|merged| - 1)
    else Lookup(merged[..|merged| - 1], key)
  }

  function MergeOne(merged: seq<Candidate>, c: Candidate): seq<Candidate> {
    match Lookup(merged, KeyOf(c))
    case Some(i) => merged[i := merged[i].(groups := Ascending(Groups(merged[i]) + Groups(c)))]
    case None => if |merged| < MAX_CANDIDATES then merged + [c] else merged
  }

  function MergeAll(merged: seq<Candidate>, cs: seq<Candidate>): seq<Candidate> {
    if cs == [] then merged else MergeOne(MergeAll(merged, cs[..|cs| - 1]), cs[|cs| - 1])
  }

  function Only(pool: seq<Candidate>, protected: bool): seq<Candidate> {
    if pool == [] then []
    else
      Only(pool[..|pool| - 1], protected)
      + if pool[|pool| - 1].protected == protected then [pool[|pool| - 1]] else []
  }

  function OnlyEach(pools: seq<seq<Candidate>>, protected: bool): (r: seq<seq<Candidate>>)
    ensures |r| == |pools| && forall i :: 0 <= i < |r| ==> r[i] == Only(pools[i], protected)
  {
    seq(|pools|, i requires 0 <= i < |pools| => Only(pools[i], protected))
  }

  /** In the order in which they are merged. */
  function Arrivals(pools: seq<seq<Candidate>>): seq<Candidate> {
    Interleaved(OnlyEach(pools, true)) + Interleaved(OnlyEach(pools, false))
  }

  lemma MergeAllSnoc(start: seq<Candidate>, cs: seq<Candidate>, c: Candidate)
    ensures MergeAll(start, cs + [c]) == MergeOne(MergeAll(start, cs), c)
  {
    assert (cs + [c])[..|cs|] == cs;
  }

  method PoolFor(pools: seq<seq<Candidate>>) returns (merged: seq<Candidate>)
    ensures merged == MergeAll([], Arrivals(pools))
  {
    merged := MergeRound([], OnlyEach(pools, true));
    merged := MergeRound(merged, OnlyEach(pools, false));
    MergeAllAppend([], Interleaved(OnlyEach(pools, true)), Interleaved(OnlyEach(pools, false)));
  }

  method MergeRound(start: seq<Candidate>, rows: seq<seq<Candidate>>) returns (merged: seq<Candidate>)
    ensures merged == MergeAll(start, Interleaved(rows))
  {
    merged := start;
    for j := 0 to Longest(rows)
      invariant merged == MergeAll(start, Rows(rows, j))
    {
      merged := MergeRow(rows, j, merged, start, Rows(rows, j));
    }
  }

  method MergeRow(rows: seq<seq<Candidate>>, j: nat, given: seq<Candidate>, ghost start: seq<Candidate>,
                  ghost done: seq<Candidate>)
    returns (merged: seq<Candidate>)
    requires given == MergeAll(start, done)
    ensures merged == MergeAll(start, done + Row(rows, j))
  {
    merged := given;
    assert done + Row(rows[..0], j) == done;
    for g := 0 to |rows|
      invariant merged == MergeAll(start, done + Row(rows[..g], j))
    {
      RowNext(rows, j, g, done);
      if j < |rows[g]| {
        var item := rows[g][j];
        MergeAllSnoc(start, done + Row(rows[..g], j), item);
        merged := MergeItem(merged, item);
      }
    }
    assert rows[..|rows|] == rows;
  }

  method MergeItem(given: seq<Candidate>, item: Candidate) returns (merged: seq<Candidate>)
    ensures merged == MergeOne(given, item)
  {
    merged := given;
    var at := Lookup(merged, KeyOf(item));
    if at.Some? {
      var entry := merged[at.value];
      merged := merged[at.value := entry.(groups := Ascending(Groups(entry) + Groups(item)))];
    } else if |merged| < MAX_CANDIDATES {
      merged := merged + [item];
    }
  }

  lemma {:induction false} MergeAllAppend(start: seq<Candidate>, a: seq<Candidate>, b: seq<Candidate>)
    ensures MergeAll(start, a + b) == MergeAll(MergeAll(start, a), b)
  {
    if b == [] {
      assert a + b == a;
    } else {
      var n := |b| - 1;
      MergeAllAppend(start, a, b[..n]);
      MergeAllSnoc(start, a + b[..n], b[n]);
      assert a + b == a + b[..n] + [b[n]];
    }
  }

  /** The groups of all arrivals with this key. */
  function AllGroups(cs: seq<Candidate>, key: Key): set<nat> {
    if cs == [] then {}
    else AllGroups(cs[..|cs| - 1], key) + if KeyOf(cs[|cs| - 1]) == key then Groups(cs[|cs| - 1]) else {}
  }

  predicate AnyProtected(cs: seq<Candidate>, key: Key) {
    cs != [] && (AnyProtected(cs[..|cs| - 1], key) || (KeyOf(cs[|cs| - 1]) == key && cs[|cs| - 1].protected))
  }

  /** The keys in the order of their first arrival. */
  function DistinctKeys(cs: seq<Candidate>): seq<Key> {
    if cs == [] then []
    else
      var rest, key := DistinctKeys(cs[..|cs| - 1]), KeyOf(cs[|cs| - 1]);
      if key in rest then rest else rest + [key]
  }

  function Keys(m: seq<Candidate>): (r: seq<Key>)
    ensures |r| == |m| && forall i :: 0 <= i < |m| ==> r[i] == KeyOf(m[i])
  {
    seq(|m|, i requires 0 <= i < |m| => KeyOf(m[i]))
  }

  function Limited(keys: seq<Key>): seq<Key> { if |keys| <= MAX_CANDIDATES then keys else keys[..MAX_CANDIDATES] }

  /** What `m` is for the arrivals `cs`: the first 24 distinct keys, each with the groups of all its
      duplicates, and protected if any of them is. */
  ghost predicate Merged(cs: seq<Candidate>, m: seq<Candidate>) {
    && Keys(m) == Limited(DistinctKeys(cs))
    && forall i :: 0 <= i < |m| ==>
         Groups(m[i]) == AllGroups(cs, KeyOf(m[i])) && (m[i].protected <==> AnyProtected(cs, KeyOf(m[i])))
  }

  /** Protected candidates arrive before the others. */
  ghost predicate ProtectedFirst(cs: seq<Candidate>) {
    forall i, j :: 0 <= i < j < |cs| && cs[j].protected ==> cs[i].protected
  }

  lemma {:induction false} KeysAreDistinct(cs: seq<Candidate>)
    ensures forall i, j :: 0 <= i < j < |DistinctKeys(cs)| ==> DistinctKeys(cs)[i] != DistinctKeys(cs)[j]
  {
    if cs != [] {
      KeysAreDistinct(cs[..|cs| - 1]);
    }
  }

  lemma {:induction false} NotArrived(cs: seq<Candidate>, key: Key)
    requires key !in DistinctKeys(cs)
    ensures AllGroups(cs, key) == {} && !AnyProtected(cs, key)
  {
    if cs != [] {
      NotArrived(cs[..|cs| - 1], key);
    }
  }

  lemma {:induction false} ArrivedProtected(cs: seq<Candidate>, key: Key)
    requires key in DistinctKeys(cs) && forall c <- cs :: c.protected
    ensures AnyProtected(cs, key)
  {
    var n := |cs| - 1;
    if key in DistinctKeys(cs[..n]) {
      ArrivedProtected(cs[..n], key);
    }
  }

  lemma SortedGroups(a: set<nat>, c: Candidate)
    ensures Groups(c.(groups := Ascending(a))) == a && KeyOf(c.(groups := Ascending(a))) == KeyOf(c)
  {}

  /** A candidate whose key is there joins its groups. */
  lemma MergeKnown(cs: seq<Candidate>, m: seq<Candidate>, c: Candidate, at: nat)
    requires Merged(cs, m) && KeysDiffer(m) && at < |m| && KeyOf(m[at]) == KeyOf(c) && (c.protected ==> m[at].protected)
    requires KeyOf(c) in DistinctKeys(cs)
    ensures Merged(cs + [c], m[at := m[at].(groups := Ascending(Groups(m[at]) + Groups(c)))])
  {
    var next := m[at := m[at].(groups := Ascending(Groups(m[at]) + Groups(c)))];
    assert (cs + [c])[..|cs|] == cs;
    SortedGroups(Groups(m[at]) + Groups(c), m[at]);
    assert Keys(next) == Keys(m);
    forall i | 0 <= i < |next|
      ensures Groups(next[i]) == AllGroups(cs + [c], KeyOf(next[i]))
      ensures next[i].protected <==> AnyProtected(cs + [c], KeyOf(next[i]))
    {
      assert i != at ==> next[i] == m[i] && Keys(m)[i] != Keys(m)[at];
    }
  }

  ghost predicate KeysDiffer(m: seq<Candidate>) { forall i, j :: 0 <= i < j < |m| ==> Keys(m)[i] != Keys(m)[j] }

  lemma MergeNew(cs: seq<Candidate>, m: seq<Candidate>, c: Candidate)
    requires Merged(cs, m) && KeyOf(c) !in Keys(m)
    ensures Merged(cs + [c], if |m| < MAX_CANDIDATES then m + [c] else m)
  {
    var keys := DistinctKeys(cs);
    assert (cs + [c])[..|cs|] == cs;
    if |m| < MAX_CANDIDATES {
      assert KeyOf(c) !in keys && Keys(m + [c]) == Keys(m) + [KeyOf(c)];
      NotArrived(cs, KeyOf(c));
    }
    forall i | 0 <= i < |m|
      ensures KeyOf(m[i]) != KeyOf(c)
    {
      assert Keys(m)[i] in Keys(m);
    }
  }

  lemma {:induction false} MergedAll(cs: seq<Candidate>)
    requires ProtectedFirst(cs)
    ensures Merged(cs, MergeAll([], cs))
  {
    if cs != [] {
      var n := |cs| - 1;
      MergedAll(cs[..n]);
      assert cs == cs[..n] + [cs[n]];
      MergedStep(cs[..n], MergeAll([], cs[..n]), cs[n]);
    }
  }

  lemma MergedStep(cs: seq<Candidate>, m: seq<Candidate>, c: Candidate)
    requires Merged(cs, m) && (c.protected ==> forall d <- cs :: d.protected)
    ensures Merged(cs + [c], MergeOne(m, c))
  {
    KeysAreDistinct(cs);
    match Lookup(m, KeyOf(c)) {
      case Some(at) =>
        assert Keys(m)[at] == KeyOf(c);
        if c.protected {
          ArrivedProtected(cs, KeyOf(c));
        }
        MergeKnown(cs, m, c, at);
      case None =>
        assert KeyOf(c) !in Keys(m);
        MergeNew(cs, m, c);
    }
  }

  lemma {:induction false} OnlyHas(pool: seq<Candidate>, protected: bool)
    ensures forall c: Candidate <- Only(pool, protected) :: c.protected == protected
  {
    if pool != [] {
      OnlyHas(pool[..|pool| - 1], protected);
    }
  }

  lemma OnlyEachHas(pools: seq<seq<Candidate>>, protected: bool)
    ensures forall c: Candidate <- Interleaved(OnlyEach(pools, protected)) :: c.protected == protected
  {
    var parts := OnlyEach(pools, protected);
    forall c: Candidate | c in Interleaved(parts)
      ensures c.protected == protected
    {
      SameEntries(parts, c);
      var g, j :| 0 <= g < |parts| && 0 <= j < |parts[g]| && parts[g][j] == c;
      OnlyHas(pools[g], protected);
    }
  }

  /** The pool: at most 24 keys, the first to arrive, none twice, each with the groups of all its
      duplicates; and when a protected one had to be refused, only protected ones are in it. */
  lemma PoolIsFair(pools: seq<seq<Candidate>>)
    ensures var cs, m := Arrivals(pools), MergeAll([], Arrivals(pools));
            && Merged(cs, m) && |m| <= MAX_CANDIDATES && KeysDiffer(m)
            && ((exists c <- cs :: c.protected && KeyOf(c) !in Keys(m)) ==> forall d <- m :: d.protected)
  {
    var a, b := Interleaved(OnlyEach(pools, true)), Interleaved(OnlyEach(pools, false));
    var cs, m := Arrivals(pools), MergeAll([], Arrivals(pools));
    OnlyEachHas(pools, true);
    OnlyEachHas(pools, false);
    MergedAll(cs);
    KeysAreDistinct(cs);
    if exists c <- cs :: c.protected && KeyOf(c) !in Keys(m) {
      var c :| c in cs && c.protected && KeyOf(c) !in Keys(m);
      AllProtected(a, b, cs, m, c);
    }
  }

  lemma AllProtected(a: seq<Candidate>, b: seq<Candidate>, cs: seq<Candidate>, m: seq<Candidate>, c: Candidate)
    requires cs == a + b && Merged(cs, m)
    requires (forall d: Candidate <- a :: d.protected) && (forall d <- b :: !d.protected)
    requires c in cs && c.protected && KeyOf(c) !in Keys(m)
    ensures forall d <- m :: d.protected
  {
    FullOfProtected(a, b, c);
    forall d | d in m
      ensures d.protected
    {
      var i :| 0 <= i < |m| && m[i] == d;
      assert Keys(m)[i] in Keys(m);
      ProtectedAt(a, b, m, i);
    }
  }

  lemma ProtectedAt(a: seq<Candidate>, b: seq<Candidate>, m: seq<Candidate>, i: nat)
    requires Merged(a + b, m) && i < |m| && KeyOf(m[i]) in DistinctKeys(a) && forall c: Candidate <- a :: c.protected
    ensures m[i].protected
  {
    ArrivedProtected(a, KeyOf(m[i]));
    StillProtected(a, b, KeyOf(m[i]));
  }

  lemma {:induction false} Arrived(cs: seq<Candidate>, c: Candidate)
    requires c in cs
    ensures KeyOf(c) in DistinctKeys(cs)
  {
    var n := |cs| - 1;
    if c != cs[n] {
      Arrived(cs[..n], c);
    }
  }

  lemma {:induction false} DistinctKeysPrefix(a: seq<Candidate>, b: seq<Candidate>)
    ensures DistinctKeys(a) <= DistinctKeys(a + b)
  {
    if b == [] {
      assert a + b == a;
    } else {
      var n := |b| - 1;
      DistinctKeysPrefix(a, b[..n]);
      assert (a + b)[..|a| + n] == a + b[..n];
    }
  }

  lemma {:induction false} StillProtected(a: seq<Candidate>, b: seq<Candidate>, key: Key)
    requires AnyProtected(a, key)
    ensures AnyProtected(a + b, key)
  {
    if b == [] {
      assert a + b == a;
    } else {
      var n := |b| - 1;
      StillProtected(a, b[..n], key);
      assert (a + b)[..|a| + n] == a + b[..n];
    }
  }

  lemma InLimited(keys: seq<Key>, i: nat)
    requires i < |keys|
    ensures i < MAX_CANDIDATES ==> keys[i] in Limited(keys)
  {
    if i < MAX_CANDIDATES {
      assert Limited(keys)[i] == keys[i];
    }
  }

  /** A key of `a` refused: already `a` alone has more keys than fit. */
  lemma FullOfProtected(a: seq<Candidate>, b: seq<Candidate>, c: Candidate)
    requires c in a + b && c.protected && (forall d <- b :: !d.protected)
    requires KeyOf(c) !in Limited(DistinctKeys(a + b))
    ensures forall key <- Limited(DistinctKeys(a + b)) :: key in DistinctKeys(a)
  {
    assert c in a;
    Arrived(a, c);
    DistinctKeysPrefix(a, b);
    var part, all := DistinctKeys(a), DistinctKeys(a + b);
    var i :| 0 <= i < |part| && part[i] == KeyOf(c);
    assert all[i] == KeyOf(c);
    InLimited(all, i);
    assert MAX_CANDIDATES <= i;
    forall k | 0 <= k < |Limited(all)|
      ensures Limited(all)[k] in part
    {
      assert Limited(all)[k] == part[k];
    }
  }
}
