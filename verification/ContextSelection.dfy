/** Selecting context around packing (`collect` in app/domain/review/context_selection.py): which changed
    files may be extended, and the order in which chunks are tried. What is fetched, the queries and the
    ranking are inputs. */
module ContextSelection {
  import opened Options
  import opened SourceRows
  import opened Packing
  import L = PackingLaws
  import C = ContextPlan

  type Sources = map<Path, seq<string>>

  // ---- Files that may be extended ----

  function PathOf(e: Entry, anchors: Anchors): Path
    requires e.id in anchors
  {
    anchors[e.id].0
  }

  /** The file's source was fetched, and each of its rows is a line of it. */
  predicate Usable(e: Entry, anchors: Anchors, loaded: Sources)
    requires e.id in anchors
  {
    PathOf(e, anchors) in loaded && FromSource(e.lines, loaded[PathOf(e, anchors)])
  }

  function Safe(files: seq<Entry>, anchors: Anchors, loaded: Sources): Sources
    requires IdsKnown(files, anchors)
  {
    if files == [] then map[]
    else
      var e, rest := files[|files| - 1], Safe(files[..|files| - 1], anchors, loaded);
      if Usable(e, anchors, loaded) then rest[PathOf(e, anchors) := loaded[PathOf(e, anchors)]] else rest
  }

  function Unavailable(files: seq<Entry>, anchors: Anchors, loaded: Sources): seq<Note>
    requires IdsKnown(files, anchors)
  {
    if files == [] then []
    else
      var e := files[|files| - 1];
      Unavailable(files[..|files| - 1], anchors, loaded)
      + if Usable(e, anchors, loaded) then [] else [Note(Some(e.id), SourceUnavailable)]
  }

  method CheckSources(files: seq<Entry>, anchors: Anchors, loaded: Sources) returns (safe: Sources, notes: seq<Note>)
    requires IdsKnown(files, anchors)
    ensures safe == Safe(files, anchors, loaded) && notes == Unavailable(files, anchors, loaded)
  {
    safe, notes := map[], [];
    for i := 0 to |files|
      invariant safe == Safe(files[..i], anchors, loaded) && notes == Unavailable(files[..i], anchors, loaded)
    {
      assert files[..i + 1][..i] == files[..i];
      var path := anchors[files[i].id].0;
      if path !in loaded
        || exists r <- files[i].lines :: !(1 <= r.line <= |loaded[path]|) || loaded[path][r.line - 1] != r.code {
        notes := notes + [Note(Some(files[i].id), SourceUnavailable)];
      } else {
        safe := safe[path := loaded[path]];
      }
    }
    assert files[..|files|] == files;
  }

  lemma {:induction false} SafeHas(files: seq<Entry>, anchors: Anchors, loaded: Sources, path: Path)
    requires IdsKnown(files, anchors)
    ensures path in Safe(files, anchors, loaded)
            <==> exists i :: 0 <= i < |files| && PathOf(files[i], anchors) == path && Usable(files[i], anchors, loaded)
    ensures path in Safe(files, anchors, loaded) ==>
              path in loaded && Safe(files, anchors, loaded)[path] == loaded[path]
  {
    if files != [] {
      SafeHas(files[..|files| - 1], anchors, loaded, path);
    }
  }

  /** No later file has the path of this one. */
  predicate IsLast(files: seq<Entry>, anchors: Anchors, j: nat)
    requires IdsKnown(files, anchors)
  {
    j < |files| && forall k :: j < k < |files| ==> PathOf(files[k], anchors) != PathOf(files[j], anchors)
  }

  /** If a path has a file that can be used, then the last file of the path can be. */
  predicate LastAreUsable(files: seq<Entry>, anchors: Anchors, loaded: Sources)
    requires IdsKnown(files, anchors)
  {
    forall i, j :: 0 <= i < |files| && 0 <= j < |files| && IsLast(files, anchors, j) ==>
      Usable(files[i], anchors, loaded) && PathOf(files[i], anchors) == PathOf(files[j], anchors) ==>
        Usable(files[j], anchors, loaded)
  }

  /** The flags of the files that can be used agree, of those that are the last of their path. */
  ghost predicate LastAgree(files: seq<Entry>, anchors: Anchors, loaded: Sources)
    requires IdsKnown(files, anchors)
  {
    forall j :: 0 <= j < |files| && IsLast(files, anchors, j) && Usable(files[j], anchors, loaded) ==>
      FlagsAgree(files[j].lines)
  }

  lemma {:induction false} LastIsIndexed(files: seq<Entry>, anchors: Anchors, path: Path)
    requires IdsKnown(files, anchors) && path in ByPath(files, anchors)
    ensures IsLast(files, anchors, ByPath(files, anchors)[path])
  {
    var n := |files| - 1;
    if PathOf(files[n], anchors) != path {
      LastIsIndexed(files[..n], anchors, path);
      LastOfMore(files, anchors, ByPath(files[..n], anchors)[path]);
    }
  }

  lemma LastOfMore(files: seq<Entry>, anchors: Anchors, j: nat)
    requires IdsKnown(files, anchors) && files != [] && IsLast(files[..|files| - 1], anchors, j)
    requires PathOf(files[|files| - 1], anchors) != PathOf(files[j], anchors)
    ensures IsLast(files, anchors, j)
  {
    var front := files[..|files| - 1];
    assert forall k :: 0 <= k < |front| ==> front[k] == files[k];
  }

  lemma OneLast(files: seq<Entry>, anchors: Anchors, i: nat, j: nat)
    requires IdsKnown(files, anchors) && IsLast(files, anchors, i) && IsLast(files, anchors, j)
    requires PathOf(files[i], anchors) == PathOf(files[j], anchors)
    ensures i == j
  {}

  /** What packing extends under a path of the bundle: its last file, if any file of the path can be used. */
  lemma ExtendedIsLast(w: World, files: seq<Entry>, anchors: Anchors, loaded: Sources, related: Sources, path: Path)
    requires IdsKnown(files, anchors) && w.sources == Safe(files, anchors, loaded) + related
    requires path !in related && path in ByPath(files, anchors)
    ensures IsLast(files, anchors, ByPath(files, anchors)[path])
    ensures path in w.sources
            <==> exists i :: 0 <= i < |files| && PathOf(files[i], anchors) == path && Usable(files[i], anchors, loaded)
    ensures path in w.sources ==> path in loaded && w.sources[path] == loaded[path]
  {
    LastIsIndexed(files, anchors, path);
    SafeHas(files, anchors, loaded, path);
  }

  /** Every file that packing can extend shows only lines of its source. */
  ghost predicate RowsPinned(w: World, p: Pack) {
    Indexed(p) && forall path <- p.at :: path in w.sources ==> FromSource(p.files[p.at[path]].lines, w.sources[path])
  }

  /** That is so if and only if, where a path has a usable file, its last file is usable. */
  lemma RowsPinnedExactly(w: World, files: seq<Entry>, anchors: Anchors, loaded: Sources, related: Sources)
    requires IdsKnown(files, anchors) && w.sources == Safe(files, anchors, loaded) + related
    requires forall i :: 0 <= i < |files| ==> PathOf(files[i], anchors) !in related
    ensures RowsPinned(w, Start(files, anchors)) <==> LastAreUsable(files, anchors, loaded)
  {
    if LastAreUsable(files, anchors, loaded) {
      UsableArePinned(w, files, anchors, loaded, related);
    }
    if RowsPinned(w, Start(files, anchors)) {
      PinnedAreUsable(w, files, anchors, loaded, related);
    }
  }

  lemma PinnedAreUsable(w: World, files: seq<Entry>, anchors: Anchors, loaded: Sources, related: Sources)
    requires IdsKnown(files, anchors) && w.sources == Safe(files, anchors, loaded) + related
    requires forall i :: 0 <= i < |files| ==> PathOf(files[i], anchors) !in related
    requires RowsPinned(w, Start(files, anchors))
    ensures LastAreUsable(files, anchors, loaded)
  {
    forall i, j | 0 <= i < |files| && 0 <= j < |files| && IsLast(files, anchors, j)
                  && Usable(files[i], anchors, loaded) && PathOf(files[i], anchors) == PathOf(files[j], anchors)
      ensures Usable(files[j], anchors, loaded)
    {
      LastIsPinned(w, files, anchors, loaded, related, i, j);
    }
  }

  lemma LastIsPinned(w: World, files: seq<Entry>, anchors: Anchors, loaded: Sources, related: Sources, i: nat, j: nat)
    requires IdsKnown(files, anchors) && w.sources == Safe(files, anchors, loaded) + related
    requires RowsPinned(w, Start(files, anchors)) && i < |files| && IsLast(files, anchors, j)
    requires Usable(files[i], anchors, loaded) && PathOf(files[i], anchors) == PathOf(files[j], anchors)
    requires PathOf(files[j], anchors) !in related
    ensures Usable(files[j], anchors, loaded)
  {
    LastIsExtended(w, files, anchors, loaded, related, i, j);
    ExtendedIsLast(w, files, anchors, loaded, related, PathOf(files[j], anchors));
  }

  lemma UsableArePinned(w: World, files: seq<Entry>, anchors: Anchors, loaded: Sources, related: Sources)
    requires IdsKnown(files, anchors) && w.sources == Safe(files, anchors, loaded) + related
    requires forall i :: 0 <= i < |files| ==> PathOf(files[i], anchors) !in related
    requires LastAreUsable(files, anchors, loaded)
    ensures RowsPinned(w, Start(files, anchors))
  {
    var at := ByPath(files, anchors);
    forall path | path in at && path in w.sources
      ensures FromSource(files[at[path]].lines, w.sources[path])
    {
      ExtendedIsLast(w, files, anchors, loaded, related, path);
      var i :| 0 <= i < |files| && PathOf(files[i], anchors) == path && Usable(files[i], anchors, loaded);
      assert Usable(files[at[path]], anchors, loaded);
    }
  }

  /** Packing keeps all rows of them if and only if, besides, the flags of each agree. */
  lemma PinnedExactly(w: World, files: seq<Entry>, anchors: Anchors, loaded: Sources, related: Sources)
    requires IdsKnown(files, anchors) && w.sources == Safe(files, anchors, loaded) + related
    requires forall i :: 0 <= i < |files| ==> PathOf(files[i], anchors) !in related
    ensures L.Pinned(w, Start(files, anchors))
            <==> LastAreUsable(files, anchors, loaded) && LastAgree(files, anchors, loaded)
  {
    RowsPinnedExactly(w, files, anchors, loaded, related);
    if LastAreUsable(files, anchors, loaded) {
      FlagsExactly(w, files, anchors, loaded, related);
    }
  }

  lemma FlagsExactly(w: World, files: seq<Entry>, anchors: Anchors, loaded: Sources, related: Sources)
    requires IdsKnown(files, anchors) && w.sources == Safe(files, anchors, loaded) + related
    requires forall i :: 0 <= i < |files| ==> PathOf(files[i], anchors) !in related
    requires RowsPinned(w, Start(files, anchors))
    ensures L.Pinned(w, Start(files, anchors)) <==> LastAgree(files, anchors, loaded)
  {
    var at := Start(files, anchors).at;
    if LastAgree(files, anchors, loaded) {
      forall path | path in at && path in w.sources
        ensures FlagsAgree(files[at[path]].lines)
      {
        ExtendedIsLast(w, files, anchors, loaded, related, path);
      }
    }
    if L.Pinned(w, Start(files, anchors)) {
      forall j | 0 <= j < |files| && IsLast(files, anchors, j) && Usable(files[j], anchors, loaded)
        ensures FlagsAgree(files[j].lines)
      {
        LastIsExtended(w, files, anchors, loaded, related, j, j);
      }
    }
  }

  lemma LastIsExtended(w: World, files: seq<Entry>, anchors: Anchors, loaded: Sources, related: Sources, i: nat, j: nat)
    requires IdsKnown(files, anchors) && w.sources == Safe(files, anchors, loaded) + related
    requires i < |files| && IsLast(files, anchors, j) && Usable(files[i], anchors, loaded)
    requires PathOf(files[i], anchors) == PathOf(files[j], anchors) && PathOf(files[j], anchors) !in related
    ensures var path := PathOf(files[j], anchors);
            path in w.sources && path in ByPath(files, anchors) && ByPath(files, anchors)[path] == j
  {
    var path := PathOf(files[j], anchors);
    assert files[j] in files;
    ExtendedIsLast(w, files, anchors, loaded, related, path);
    OneLast(files, anchors, j, ByPath(files, anchors)[path]);
  }

  predicate DistinctPaths(files: seq<Entry>, anchors: Anchors)
    requires IdsKnown(files, anchors)
  {
    forall i, j :: 0 <= i < j < |files| ==> PathOf(files[i], anchors) != PathOf(files[j], anchors)
  }

  lemma DistinctAreLast(files: seq<Entry>, anchors: Anchors, loaded: Sources)
    requires IdsKnown(files, anchors) && DistinctPaths(files, anchors)
    ensures forall j :: 0 <= j < |files| ==> IsLast(files, anchors, j)
    ensures LastAreUsable(files, anchors, loaded)
  {}

  /** With one file to a path, the check lets exactly the files be extended whose rows are lines of their
      source. Then packing keeps every row if and only if no line of them is both changed and unchanged. */
  lemma CheckedArePinned(w: World, files: seq<Entry>, anchors: Anchors, loaded: Sources, related: Sources)
    requires IdsKnown(files, anchors) && DistinctPaths(files, anchors)
    requires w.sources == Safe(files, anchors, loaded) + related
    requires forall i :: 0 <= i < |files| ==> PathOf(files[i], anchors) !in related
    ensures forall i :: 0 <= i < |files| ==>
              (PathOf(files[i], anchors) in w.sources <==> Usable(files[i], anchors, loaded))
    ensures L.Pinned(w, Start(files, anchors))
            <==> forall i :: 0 <= i < |files| && Usable(files[i], anchors, loaded) ==> FlagsAgree(files[i].lines)
  {
    DistinctAreLast(files, anchors, loaded);
    PinnedExactly(w, files, anchors, loaded, related);
    forall i | 0 <= i < |files|
      ensures PathOf(files[i], anchors) in w.sources <==> Usable(files[i], anchors, loaded)
    {
      SafeHas(files, anchors, loaded, PathOf(files[i], anchors));
    }
  }

  /** With two files of one path the first may let the path through, and packing extends the second. */
  lemma TwinIsExtended(first: Entry, second: Entry, anchors: Anchors, loaded: Sources, path: Path)
    requires first.id in anchors && second.id in anchors && anchors[first.id].0 == path == anchors[second.id].0
    requires Usable(first, anchors, loaded) && !Usable(second, anchors, loaded)
    ensures path in Safe([first, second], anchors, loaded)
    ensures path in Start([first, second], anchors).at && Start([first, second], anchors).at[path] == 1
  {
    var files := [first, second];
    assert files[0] == first;
    SafeHas(files, anchors, loaded, path);
    assert files[..1] == [first];
  }

  // ---- The order of the chunks ----

  datatype Query = Query(path: Path, numbers: seq<nat>)

  predicate InPool(order: seq<nat>, n: nat) { forall i :: 0 <= i < |order| ==> order[i] < n }

  function ChunkOf(c: C.Candidate): Chunk { Chunk(c.path, c.numbers, c.protected) }

  function Selected(pool: seq<C.Candidate>, order: seq<nat>, protected: bool): seq<Chunk>
    requires InPool(order, |pool|)
  {
    if order == [] then []
    else
      var c := pool[order[|order| - 1]];
      Selected(pool, order[..|order| - 1], protected) + if c.protected == protected then [ChunkOf(c)] else []
  }

  function Asked(queries: seq<Query>): seq<Chunk> {
    if queries == [] then []
    else
      var q := queries[|queries| - 1];
      Asked(queries[..|queries| - 1]) + [Chunk(q.path, q.numbers, false)]
  }

  /** Protected chunks, then those around the changes themselves, then the rest. */
  function Plan(pool: seq<C.Candidate>, order: seq<nat>, queries: seq<Query>): seq<Chunk>
    requires InPool(order, |pool|)
  {
    Selected(pool, order, true) + Asked(queries) + Selected(pool, order, false)
  }

  predicate PoolReadable(w: World, pool: seq<C.Candidate>, queries: seq<Query>) {
    && (forall i :: 0 <= i < |pool| ==> Readable(w, ChunkOf(pool[i])))
    && forall i :: 0 <= i < |queries| ==> Readable(w, Chunk(queries[i].path, queries[i].numbers, false))
  }

  lemma {:induction false} SelectedReadable(w: World, pool: seq<C.Candidate>, order: seq<nat>, protected: bool)
    requires InPool(order, |pool|) && PoolReadable(w, pool, [])
    ensures AllReadable(w, Selected(pool, order, protected))
    ensures forall c <- Selected(pool, order, protected) :: c.protected == protected
  {
    if order != [] {
      SelectedReadable(w, pool, order[..|order| - 1], protected);
    }
  }

  lemma {:induction false} AskedReadable(w: World, queries: seq<Query>)
    requires PoolReadable(w, [], queries)
    ensures AllReadable(w, Asked(queries)) && forall c <- Asked(queries) :: !c.protected
  {
    if queries != [] {
      AskedReadable(w, queries[..|queries| - 1]);
    }
  }

  lemma PlanReadable(w: World, pool: seq<C.Candidate>, order: seq<nat>, queries: seq<Query>)
    requires InPool(order, |pool|) && PoolReadable(w, pool, queries)
    ensures AllReadable(w, Plan(pool, order, queries))
  {
    SelectedReadable(w, pool, order, true);
    SelectedReadable(w, pool, order, false);
    AskedReadable(w, queries);
  }

  lemma {:induction false} PackedInTurn(w: World, p: Pack, q: Pack, a: seq<Chunk>, b: seq<Chunk>, all: seq<Chunk>)
    requires Indexed(p) && AllReadable(w, a) && AllReadable(w, b) && AllReadable(w, all) && all == a + b
    requires q == Packed(w, p, a)
    ensures Packed(w, q, b) == Packed(w, p, all)
    decreases b
  {
    if b == [] {
      assert all == a;
    } else {
      LastInTurn(a, b, all);
      PackedLast(w, p, all);
      PackedLast(w, q, b);
      PackedInTurn(w, p, q, a, b[..|b| - 1], all[..|all| - 1]);
    }
  }

  lemma PackedLast(w: World, p: Pack, chunks: seq<Chunk>)
    requires Indexed(p) && AllReadable(w, chunks) && chunks != []
    ensures var n := |chunks| - 1;
            && AllReadable(w, chunks[..n]) && Readable(w, chunks[n])
            && Packed(w, p, chunks) == Appended(w, Packed(w, p, chunks[..n]), chunks[n])
  {}

  lemma LastInTurn(a: seq<Chunk>, b: seq<Chunk>, all: seq<Chunk>)
    requires b != [] && all == a + b
    ensures all != [] && all[..|all| - 1] == a + b[..|b| - 1] && all[|all| - 1] == b[|b| - 1]
  {}

  lemma ReadableInTurn(w: World, a: seq<Chunk>, b: seq<Chunk>)
    requires AllReadable(w, a) && AllReadable(w, b)
    ensures AllReadable(w, a + b)
  {}

  /** The plan is packed part by part. */
  lemma PlanPacked(w: World, p: Pack, pool: seq<C.Candidate>, order: seq<nat>, queries: seq<Query>,
                   a: seq<Chunk>, b: seq<Chunk>, c: seq<Chunk>)
    requires Indexed(p) && InPool(order, |pool|) && PoolReadable(w, pool, queries)
    requires a == Selected(pool, order, true) && b == Asked(queries) && c == Selected(pool, order, false)
    ensures AllReadable(w, a) && AllReadable(w, b) && AllReadable(w, c) && AllReadable(w, Plan(pool, order, queries))
    ensures Packed(w, Packed(w, Packed(w, p, a), b), c) == Packed(w, p, Plan(pool, order, queries))
  {
    SelectedReadable(w, pool, order, true);
    SelectedReadable(w, pool, order, false);
    AskedReadable(w, queries);
    ReadableInTurn(w, a, b);
    ReadableInTurn(w, a + b, c);
    PackedInTurn(w, p, Packed(w, p, a), a, b, a + b);
    PackedInTurn(w, p, Packed(w, p, a + b), a + b, c, a + b + c);
  }

  method Collect(k: Collector, pool: seq<C.Candidate>, orders: seq<seq<nat>>, queries: seq<Query>)
    requires k.Valid() && AllAnchored(k.view) && PoolReadable(k.world, pool, queries)
    requires InPool(C.Prioritized(pool, orders), |pool|)
    modifies k, k.Items()
    ensures var chunks := Plan(pool, C.Prioritized(pool, orders), queries);
            && AllReadable(k.world, chunks)
            && var packed := Packed(k.world, old(k.view), chunks);
               && k.Shows(packed.files) && k.notes == packed.notes && k.missing == packed.missing
               && AllAnchored(packed) && k.anchors == Refreshed(packed.files, packed.anchors)
  {
    var order := C.Prioritize(pool, orders);
    ghost var w, p := k.world, k.view;
    PlanPacked(w, p, pool, order, queries, Selected(pool, order, true), Asked(queries), Selected(pool, order, false));
    AppendSelected(k, pool, order, true);
    AppendQueries(k, queries);
    AppendSelected(k, pool, order, false);
    k.Refresh();
  }

  /** One more chunk. */
  method AppendOne(k: Collector, c: Chunk, ghost p: Pack, ghost done: seq<Chunk>, ghost chunks: seq<Chunk>)
    requires k.Valid() && AllAnchored(k.view) && Readable(k.world, c)
    requires Indexed(p) && AllReadable(k.world, done) && k.view == Packed(k.world, p, done) && chunks == done + [c]
    modifies k, k.Items()
    ensures k.Valid() && AllAnchored(k.view) && fresh(k.Items() - old(k.Items()))
    ensures AllReadable(k.world, chunks) && k.view == Packed(k.world, p, chunks)
  {
    assert chunks[..|done|] == done;
    AppendedAnchored(k.world, k.view, c);
    k.AppendChunk(c);
  }

  method AppendIfSelected(k: Collector, c: C.Candidate, protected: bool, ghost p: Pack, ghost done: seq<Chunk>,
                          ghost chunks: seq<Chunk>)
    requires k.Valid() && AllAnchored(k.view) && Readable(k.world, ChunkOf(c))
    requires Indexed(p) && AllReadable(k.world, done) && k.view == Packed(k.world, p, done)
    requires chunks == if c.protected == protected then done + [ChunkOf(c)] else done
    modifies k, k.Items()
    ensures k.Valid() && AllAnchored(k.view) && fresh(k.Items() - old(k.Items()))
    ensures AllReadable(k.world, chunks) && k.view == Packed(k.world, p, chunks)
  {
    if c.protected == protected {
      AppendOne(k, ChunkOf(c), p, done, chunks);
    }
  }

  /** The loop's body. */
  method AppendAt(k: Collector, pool: seq<C.Candidate>, order: seq<nat>, protected: bool, i: nat, ghost p: Pack)
    requires k.Valid() && AllAnchored(k.view) && InPool(order, |pool|) && i < |order|
    requires Readable(k.world, ChunkOf(pool[order[i]])) && Indexed(p)
    requires AllReadable(k.world, Selected(pool, order[..i], protected))
    requires k.view == Packed(k.world, p, Selected(pool, order[..i], protected))
    modifies k, k.Items()
    ensures k.Valid() && AllAnchored(k.view) && fresh(k.Items() - old(k.Items()))
    ensures AllReadable(k.world, Selected(pool, order[..i + 1], protected))
    ensures k.view == Packed(k.world, p, Selected(pool, order[..i + 1], protected))
  {
    ghost var done, chunks := Selected(pool, order[..i], protected), Selected(pool, order[..i + 1], protected);
    SelectedNext(pool, order, i, protected);
    AppendIfSelected(k, pool[order[i]], protected, p, done, chunks);
  }

  method AppendSelected(k: Collector, pool: seq<C.Candidate>, order: seq<nat>, protected: bool)
    requires k.Valid() && AllAnchored(k.view) && PoolReadable(k.world, pool, []) && InPool(order, |pool|)
    modifies k, k.Items()
    ensures k.Valid() && AllAnchored(k.view) && fresh(k.Items() - old(k.Items()))
    ensures AllReadable(k.world, Selected(pool, order, protected))
    ensures k.view == Packed(k.world, old(k.view), Selected(pool, order, protected))
  {
    ghost var p := k.view;
    for i := 0 to |order|
      invariant k.Valid() && AllAnchored(k.view) && fresh(k.Items() - old(k.Items()))
      invariant AllReadable(k.world, Selected(pool, order[..i], protected))
      invariant k.view == Packed(k.world, p, Selected(pool, order[..i], protected))
    {
      AppendAt(k, pool, order, protected, i, p);
    }
    assert order[..|order|] == order;
  }

  lemma SelectedNext(pool: seq<C.Candidate>, order: seq<nat>, i: nat, protected: bool)
    requires InPool(order, |pool|) && i < |order|
    ensures var c := pool[order[i]];
            Selected(pool, order[..i + 1], protected)
            == if c.protected == protected then Selected(pool, order[..i], protected) + [ChunkOf(c)]
               else Selected(pool, order[..i], protected)
  {
    assert order[..i + 1][..i] == order[..i];
  }

  method AppendQueries(k: Collector, queries: seq<Query>)
    requires k.Valid() && AllAnchored(k.view) && PoolReadable(k.world, [], queries)
    modifies k, k.Items()
    ensures k.Valid() && AllAnchored(k.view) && fresh(k.Items() - old(k.Items()))
    ensures AllReadable(k.world, Asked(queries))
    ensures k.view == Packed(k.world, old(k.view), Asked(queries))
  {
    ghost var w, p := k.world, k.view;
    for i := 0 to |queries|
      invariant k.Valid() && AllAnchored(k.view) && fresh(k.Items() - old(k.Items()))
      invariant AllReadable(w, Asked(queries[..i])) && k.view == Packed(w, p, Asked(queries[..i]))
    {
      assert queries[..i + 1][..i] == queries[..i];
      AppendOne(k, Chunk(queries[i].path, queries[i].numbers, false), p, Asked(queries[..i]), Asked(queries[..i + 1]));
    }
    assert queries[..|queries|] == queries;
  }

  // ---- Protected chunks are independent of the ranking ----

  lemma OrdersStayInPool(pool: seq<C.Candidate>, orders: seq<seq<nat>>)
    requires forall g :: 0 <= g < |orders| ==> InPool(orders[g], |pool|)
    ensures InPool(C.Prioritized(pool, orders), |pool|)
  {
    C.PrioritizedCovers(pool, orders);
    var order := C.Prioritized(pool, orders);
    assert forall i :: 0 <= i < |order| ==> order[i] in order;
  }

  lemma {:induction false} SelectedInTurn(pool: seq<C.Candidate>, a: seq<nat>, b: seq<nat>, protected: bool)
    requires InPool(a, |pool|) && InPool(b, |pool|) && InPool(a + b, |pool|)
    requires forall i :: 0 <= i < |b| ==> pool[b[i]].protected != protected
    ensures Selected(pool, a + b, protected) == Selected(pool, a, protected)
  {
    if b == [] {
      assert a + b == a;
    } else {
      var n := |b| - 1;
      assert (a + b)[..|a| + n] == a + b[..n];
      SelectedInTurn(pool, a, b[..n], protected);
    }
  }

  /** The protected chunks of a pool, in its order. */
  function Protected(pool: seq<C.Candidate>): seq<Chunk> {
    if pool == [] then []
    else
      var c := pool[|pool| - 1];
      Protected(pool[..|pool| - 1]) + if c.protected then [ChunkOf(c)] else []
  }

  lemma {:induction false} ProtectedInPool(pool: seq<C.Candidate>)
    ensures InPool(C.ProtectedOf(pool), |pool|)
  {
    if pool != [] {
      ProtectedInPool(pool[..|pool| - 1]);
    }
  }

  /** Only the entries of the pool that are named matter. */
  lemma {:induction false} SelectedFromPart(part: seq<C.Candidate>, pool: seq<C.Candidate>, order: seq<nat>,
                                            protected: bool)
    requires part <= pool && InPool(order, |part|)
    ensures Selected(part, order, protected) == Selected(pool, order, protected)
  {
    if order != [] {
      SelectedFromPart(part, pool, order[..|order| - 1], protected);
    }
  }

  lemma {:induction false} ProtectedSelected(pool: seq<C.Candidate>)
    requires InPool(C.ProtectedOf(pool), |pool|)
    ensures Selected(pool, C.ProtectedOf(pool), true) == Protected(pool)
  {
    if pool != [] {
      var n := |pool| - 1;
      var order := C.ProtectedOf(pool[..n]);
      ProtectedInPool(pool[..n]);
      ProtectedSelected(pool[..n]);
      SelectedFromPart(pool[..n], pool, order, true);
      if pool[n].protected {
        assert (order + [n])[..|order|] == order;
      } else {
        assert order + [] == order;
      }
    }
  }

  lemma SelectedSplit(pool: seq<C.Candidate>, all: seq<nat>, first: seq<nat>, rest: seq<nat>)
    requires InPool(all, |pool|) && all == first + rest
    requires forall i :: 0 <= i < |rest| ==> rest[i] < |pool| ==> !pool[rest[i]].protected
    ensures InPool(first, |pool|) && Selected(pool, all, true) == Selected(pool, first, true)
  {
    assert forall i :: 0 <= i < |first| ==> all[i] == first[i];
    assert forall i :: 0 <= i < |rest| ==> all[|first| + i] == rest[i];
    SelectedInTurn(pool, first, rest, true);
  }

  /** Whatever order the ranking gives, the protected chunks come first and in the order of the pool. */
  lemma ProtectedComeFirst(pool: seq<C.Candidate>, orders: seq<seq<nat>>)
    requires InPool(C.Prioritized(pool, orders), |pool|)
    ensures Selected(pool, C.Prioritized(pool, orders), true) == Protected(pool)
  {
    var rest := C.PrioritizedSplits(pool, orders);
    SelectedSplit(pool, C.Prioritized(pool, orders), C.ProtectedOf(pool), rest);
    ProtectedSelected(pool);
  }

  lemma {:induction false} UnprotectedMissNothing(w: World, p: Pack, a: seq<Chunk>, b: seq<Chunk>)
    requires Indexed(p) && AllReadable(w, a + b) && forall i :: 0 <= i < |b| ==> !b[i].protected
    ensures AllReadable(w, a) && L.Misses(w, p, a + b) == L.Misses(w, p, a)
  {
    if b == [] {
      assert a + b == a;
    } else {
      var n := |b| - 1;
      assert (a + b)[..|a| + n] == a + b[..n];
      UnprotectedMissNothing(w, p, a, b[..n]);
    }
  }

  /** Chunks at the front are tried against those before them alone. */
  lemma FrontAlone(w: World, p: Pack, chunks: seq<Chunk>, first: seq<Chunk>, i: nat)
    requires L.Sound(w, p) && AllReadable(w, chunks) && AllReadable(w, first) && first <= chunks && i < |first|
    requires Admits(w, Packed(w, p, first[..i]), first[i])
    ensures L.Provides(Packed(w, p, chunks), first[i])
  {
    assert chunks[..i] == first[..i] && chunks[i] == first[i];
    L.AdmittedStays(w, p, chunks, i);
  }

  lemma UnprotectedAfter(w: World, p: Pack, chunks: seq<Chunk>, first: seq<Chunk>, rest: seq<Chunk>)
    requires Indexed(p) && AllReadable(w, chunks) && chunks == first + rest
    requires forall i :: 0 <= i < |rest| ==> !rest[i].protected
    ensures AllReadable(w, first) && Packed(w, p, chunks).missing == p.missing + L.Misses(w, p, first)
  {
    UnprotectedMissNothing(w, p, first, rest);
    L.MissesCounted(w, p, chunks);
  }

  lemma PlanSplits(w: World, pool: seq<C.Candidate>, orders: seq<seq<nat>>, queries: seq<Query>)
    returns (rest: seq<Chunk>)
    requires PoolReadable(w, pool, queries) && InPool(C.Prioritized(pool, orders), |pool|)
    ensures Plan(pool, C.Prioritized(pool, orders), queries) == Protected(pool) + rest
    ensures forall i :: 0 <= i < |rest| ==> !rest[i].protected
  {
    var order := C.Prioritized(pool, orders);
    ProtectedComeFirst(pool, orders);
    SelectedReadable(w, pool, order, false);
    AskedReadable(w, queries);
    var asked, others := Asked(queries), Selected(pool, order, false);
    rest := asked + others;
    assert forall i :: 0 <= i < |rest| ==> rest[i] in asked || rest[i] in others;
  }

  /** So neither the ranking nor the other chunks change which protected chunks fit: each is tried against
      the protected ones before it alone, stays if admitted then, and counts as missing if not. */
  lemma RankingCannotCostProtected(w: World, p: Pack, pool: seq<C.Candidate>, orders: seq<seq<nat>>,
                                   queries: seq<Query>)
    requires L.Sound(w, p) && PoolReadable(w, pool, queries) && InPool(C.Prioritized(pool, orders), |pool|)
    ensures var chunks, first := Plan(pool, C.Prioritized(pool, orders), queries), Protected(pool);
            && first <= chunks && AllReadable(w, chunks) && AllReadable(w, first)
            && Packed(w, p, chunks).missing == p.missing + L.Misses(w, p, first)
            && forall i :: 0 <= i < |first| && Admits(w, Packed(w, p, first[..i]), first[i]) ==>
                 L.Provides(Packed(w, p, chunks), first[i])
  {
    var order := C.Prioritized(pool, orders);
    var chunks, first := Plan(pool, order, queries), Protected(pool);
    PlanReadable(w, pool, order, queries);
    var rest := PlanSplits(w, pool, orders, queries);
    UnprotectedAfter(w, p, chunks, first, rest);
    forall i | 0 <= i < |first| && Admits(w, Packed(w, p, first[..i]), first[i])
      ensures L.Provides(Packed(w, p, chunks), first[i])
    {
      FrontAlone(w, p, chunks, first, i);
    }
  }

  /** What packing promises of a bundle, after all chunks. */
  ghost predicate WellPacked(w: World, files: seq<Entry>, anchors: Anchors, q: Pack) {
    && IdsKnown(files, anchors) && L.Sound(w, q) && L.Contents(w, files, q) && L.Grows(Start(files, anchors), q)
    && IdsKnown(q.files, q.anchors) && Refreshed(q.files, q.anchors) == q.anchors
  }

  /** The whole of it: a prepared bundle, the files checked, with exactly what makes those pinned that can
      be extended; any pool, ranking and queries over the sources. */
  lemma CollectedBundle(w: World, files: seq<Entry>, anchors: Anchors, loaded: Sources, related: Sources,
                        pool: seq<C.Candidate>, orders: seq<seq<nat>>, queries: seq<Query>, p: Pack, chunks: seq<Chunk>)
    requires IdsKnown(files, anchors) && L.Prepared(w, files, anchors)
    requires LastAreUsable(files, anchors, loaded) && LastAgree(files, anchors, loaded)
    requires w.sources == Safe(files, anchors, loaded) + related
    requires forall i :: 0 <= i < |files| ==> PathOf(files[i], anchors) !in related
    requires PoolReadable(w, pool, queries) && InPool(C.Prioritized(pool, orders), |pool|)
    requires p == Start(files, anchors) && chunks == Plan(pool, C.Prioritized(pool, orders), queries)
    ensures Indexed(p) && AllReadable(w, chunks) && AllReadable(w, Protected(pool))
    ensures WellPacked(w, files, anchors, Packed(w, p, chunks))
    ensures Packed(w, p, chunks).missing == L.Misses(w, p, Protected(pool))
  {
    PinnedExactly(w, files, anchors, loaded, related);
    PlanReadable(w, pool, C.Prioritized(pool, orders), queries);
    L.PackedBundle(w, files, anchors, chunks);
    L.StartIsSound(w, files, anchors);
    RankingCannotCostProtected(w, p, pool, orders, queries);
  }
}
