/** What packing guarantees, for any sequence of chunks and any byte-size functions. */
module PackingLaws {
  import opened Options
  import opened Packing
  import opened SourceRows
  import P = Patch

  /** The prepared bundle: numbered changed files within both budgets, and anchors that are exactly
      the provided lines (policy.py, lines 110-130). */
  ghost predicate Prepared(w: World, files: seq<Entry>, anchors: Anchors) {
    && Numbered(files) && CountRelated(files) == 0 && InBudget(w, files)
    && anchors.Keys == Ids(files)
    && forall e <- files :: anchors[e.id].1 == Numbers(e.lines)
  }

  function Ids(files: seq<Entry>): set<Id> { set e | e in files :: e.id }

  /** All of a file but its rows. */
  function Header(e: Entry): Entry { e.(lines := []) }

  ghost predicate Numbered(files: seq<Entry>) {
    forall i :: 0 <= i < |files| ==> files[i].id == if files[i].related then RelatedFile(i + 1) else ChangedFile(i + 1)
  }

  ghost predicate InBudget(w: World, files: seq<Entry>) {
    w.dataBytes(files) <= w.maxInput && forall e <- files :: w.itemBytes(e) <= w.perFile
  }

  // ---- One chunk ----

  lemma GrownNumbers(w: World, e: Entry, c: Chunk)
    requires Readable(w, c)
    ensures var lines := Grown(w, e, c).lines;
            && Numbers(lines) == Numbers(e.lines) + (set n | n in c.numbers)
            && (forall i, j :: 0 <= i < j < |lines| ==> lines[i].line < lines[j].line)
            && (forall r <- lines :: r in e.lines || (r.line in c.numbers && r == SourceRow(w.sources[c.path], r.line)))
  {
    var rows := Extended(Rows(e.lines), c.numbers, w.sources[c.path]);
    InOrderNumbers(rows);
  }

  lemma GrownKeepsConsistent(w: World, e: Entry, c: Chunk)
    requires Readable(w, c)
    ensures (forall r <- e.lines :: r in Grown(w, e, c).lines) <==> Consistent(e.lines)
  {
    var rows := Extended(Rows(e.lines), c.numbers, w.sources[c.path]);
    InOrderNumbers(rows);
    forall r | r in e.lines
      ensures r.line in Rows(e.lines) && rows[r.line] in e.lines && rows[r.line].line == r.line
    {
      assert r.line in Numbers(e.lines);
    }
  }

  /** A file whose rows are lines of its pinned source, as only such files are extended, keeps all its
      rows, changed ones included, if and only if no line is both changed and unchanged in it. */
  lemma GrownKeepsRows(w: World, e: Entry, c: Chunk)
    requires Readable(w, c) && FromSource(e.lines, w.sources[c.path])
    ensures (forall r <- e.lines :: r in Grown(w, e, c).lines) <==> FlagsAgree(e.lines)
  {
    GrownKeepsConsistent(w, e, c);
    PinnedRowsDifferByFlag(e.lines, w.sources[c.path]);
  }

  /** `@@ -1 +1 @@`, `+x`, `@@ -1 +1 @@`, ` x`: line 1 is both changed and unchanged, and a file prepared from it
      loses its changed row to the first chunk it is extended by. */
  lemma ChangedRowLost(w: World, e: Entry, c: Chunk, x: string)
    requires Readable(w, c) && w.sources[c.path] == [x]
    requires e.lines == P.Rows([P.Header(1, 1, 1, 1), P.Added(x), P.Header(1, 1, 1, 1), P.Context(x)]).0
    ensures e.lines == [Row(1, x, true), Row(1, x, false)] && FromSource(e.lines, w.sources[c.path])
    ensures Grown(w, e, c).lines == [Row(1, x, false)]
  {
    TwiceClaimed(x);
    LaterRowStays(Row(1, x, true), Row(1, x, false), e.lines);
    OnlyRowStays(Rows(e.lines), Extended(Rows(e.lines), c.numbers, w.sources[c.path]), Row(1, x, false));
  }

  lemma LaterRowStays(a: Row, b: Row, rows: seq<Row>)
    requires a.line == b.line && rows == [a, b]
    ensures Rows(rows) == map[b.line := b]
  {
    assert rows[..1] == [a] && [a][..0] == [];
  }

  lemma OnlyRowStays(rows: map<nat, Row>, more: map<nat, Row>, r: Row)
    requires rows == map[r.line := r] == more
    ensures InOrder(more) == [r]
  {
    InOrderNumbers(more);
    var sorted := InOrder(more);
    assert r in sorted;
    assert forall i :: 0 <= i < |sorted| ==> sorted[i] in sorted;
    OnlyRow(sorted, r);
  }

  lemma OnlyRow(rows: seq<Row>, r: Row)
    requires r in rows && forall i :: 0 <= i < |rows| ==> rows[i] == r
    requires forall i, j :: 0 <= i < j < |rows| ==> rows[i].line < rows[j].line
    ensures rows == [r]
  {
    assert |rows| > 1 ==> rows[0].line < rows[1].line;
  }

  lemma TwiceClaimed(x: string)
    ensures P.Rows([P.Header(1, 1, 1, 1), P.Added(x), P.Header(1, 1, 1, 1), P.Context(x)]).0
              == [Row(1, x, true), Row(1, x, false)]
  {
    var h := P.Hunk(1, 1, 1, 1, [P.Added(x)]);
    var k := P.Hunk(1, 1, 1, 1, [P.Context(x)]);
    P.OneLineHunks(h, P.Added(x), k, P.Context(x));
  }

  lemma CountRelatedAppend(files: seq<Entry>, e: Entry)
    ensures CountRelated(files + [e]) == CountRelated(files) + if e.related then 1 else 0
  {
    assert (files + [e])[..|files|] == files;
  }

  lemma {:induction false} CountRelatedUpdate(files: seq<Entry>, i: nat, e: Entry)
    requires i < |files| && files[i].related == e.related
    ensures CountRelated(files[i := e]) == CountRelated(files)
  {
    var n := |files| - 1;
    if i < n {
      assert files[i := e][..n] == files[..n][i := e];
      CountRelatedUpdate(files[..n], i, e);
    } else {
      assert files[i := e][..n] == files[..n];
    }
  }

  /** Each file is anchored under a known path with exactly its provided lines. */
  ghost predicate Anchored(p: Pack) {
    && p.anchors.Keys == Ids(p.files)
    && forall e <- p.files :: p.anchors[e.id].0 in p.at && p.anchors[e.id].1 == Numbers(e.lines)
  }

  ghost predicate PathsLead(p: Pack) {
    && Indexed(p)
    && forall q <- p.at :: p.files[p.at[q]].id in p.anchors && p.anchors[p.files[p.at[q]].id].0 == q
  }

  /** Between packing steps: unique ids, budgets, the related limit, and a path for every file. */
  ghost predicate Sound(w: World, p: Pack) {
    && Numbered(p.files) && InBudget(w, p.files) && CountRelated(p.files) <= MAX_RELATED
    && Anchored(p) && PathsLead(p)
  }

  /** `q` is `p` with `e` written at `s`, or appended there. */
  ghost predicate Put(p: seq<Entry>, q: seq<Entry>, s: nat, e: Entry) {
    && s < |q| && q[s] == e && |p| <= |q| && (s < |p| ==> |q| == |p|) && (|p| <= s ==> s == |p| && |q| == |p| + 1)
    && forall i :: 0 <= i < |p| && i != s ==> q[i] == p[i]
  }

  /** `q` is `p` after the chunk of `path` was admitted as `e` at `s`. */
  ghost predicate Admitted(p: Pack, q: Pack, s: nat, e: Entry, path: Path) {
    && Indexed(p) && Put(p.files, q.files, s, e)
    && (s < |p.files| <==> path in p.at) && (path in p.at ==> p.at[path] == s && Header(e) == Header(p.files[s]))
    && q.at == p.at[path := s] && q.anchors == p.anchors[e.id := (path, Numbers(e.lines))]
  }

  lemma AdmitsAsPut(w: World, p: Pack, c: Chunk)
    requires Readable(w, c) && Indexed(p) && Numbered(p.files) && CountRelated(p.files) <= MAX_RELATED
             && Admits(w, p, c)
    ensures var q := Appended(w, p, c);
            && Admitted(p, q, Slot(p, c), Grown(w, Target(p, c), c), c.path)
            && CountRelated(q.files) <= MAX_RELATED && Numbered(q.files)
            && w.itemBytes(Grown(w, Target(p, c), c)) <= w.perFile && w.dataBytes(q.files) <= w.maxInput
  {
    var e := Grown(w, Target(p, c), c);
    if c.path in p.at {
      CountRelatedUpdate(p.files, p.at[c.path], e);
    } else {
      CountRelatedAppend(p.files, e);
    }
  }

  lemma IdsPut(p: seq<Entry>, q: seq<Entry>, s: nat, e: Entry)
    requires Put(p, q, s, e) && (s < |p| ==> p[s].id == e.id)
    ensures Ids(q) == Ids(p) + {e.id}
  {
    assert forall i :: 0 <= i < |p| ==> q[i].id == p[i].id && q[i] in q;
    assert q[s] in q;
    assert forall i :: 0 <= i < |q| && i != s ==> q[i] in p;
  }

  lemma AnchorsPut(p: Pack, q: Pack, s: nat, e: Entry, path: Path)
    requires Admitted(p, q, s, e, path) && Numbered(q.files) && Anchored(p)
    ensures Anchored(q)
  {
    IdsPut(p.files, q.files, s, e);
    forall i | 0 <= i < |q.files|
      ensures var x := q.files[i]; q.anchors[x.id].0 in q.at && q.anchors[x.id].1 == Numbers(x.lines)
    {
      assert i != s ==> q.files[i] == p.files[i] && q.files[i] in p.files && q.files[i].id != q.files[s].id;
    }
  }

  lemma PathsPut(p: Pack, q: Pack, s: nat, e: Entry, path: Path)
    requires Admitted(p, q, s, e, path) && Numbered(q.files) && PathsLead(p)
    ensures PathsLead(q)
  {
    forall r | r in q.at
      ensures q.at[r] < |q.files| && q.files[q.at[r]].id in q.anchors && q.anchors[q.files[q.at[r]].id].0 == r
    {
      if r != path {
        var i := p.at[r];
        assert i != s ==> q.files[i].id == p.files[i].id != q.files[s].id;
      }
    }
  }

  lemma SoundPut(w: World, p: Pack, q: Pack, s: nat, e: Entry, path: Path)
    requires Sound(w, p) && Admitted(p, q, s, e, path) && CountRelated(q.files) <= MAX_RELATED && Numbered(q.files)
    requires w.itemBytes(e) <= w.perFile && w.dataBytes(q.files) <= w.maxInput
    ensures Sound(w, q)
  {
    AnchorsPut(p, q, s, e, path);
    PathsPut(p, q, s, e, path);
    BudgetPut(w, p.files, q.files, s, e);
  }

  lemma BudgetPut(w: World, p: seq<Entry>, q: seq<Entry>, s: nat, e: Entry)
    requires InBudget(w, p) && Put(p, q, s, e) && w.itemBytes(e) <= w.perFile && w.dataBytes(q) <= w.maxInput
    ensures InBudget(w, q)
  {
    forall x | x in q
      ensures w.itemBytes(x) <= w.perFile
    {
      assert x == e || x in p;
    }
  }

  /** All lines of the chunk are provided, in the file of its path. */
  ghost predicate Provides(q: Pack, c: Chunk) {
    && c.path in q.at && q.at[c.path] < |q.files|
    && forall n <- c.numbers :: n in Numbers(q.files[q.at[c.path]].lines)
  }

  /** Every chunk keeps the invariant: it is admitted whole or everything is as before. */
  lemma AppendedKeeps(w: World, p: Pack, c: Chunk)
    requires Readable(w, c) && Sound(w, p)
    ensures Sound(w, Appended(w, p, c))
    ensures var q := Appended(w, p, c);
            if Admits(w, p, c) then Provides(q, c)
            else q.files == p.files && q.at == p.at && q.anchors == p.anchors
  {
    if Admits(w, p, c) {
      AdmitsAsPut(w, p, c);
      SoundPut(w, p, Appended(w, p, c), Slot(p, c), Grown(w, Target(p, c), c), c.path);
      GrownNumbers(w, Target(p, c), c);
    }
  }

  // ---- Any sequence of chunks ----

  lemma StartIsSound(w: World, files: seq<Entry>, anchors: Anchors)
    requires Prepared(w, files, anchors)
    ensures Sound(w, Start(files, anchors))
  {}

  lemma {:induction false} PackedIsSound(w: World, p: Pack, chunks: seq<Chunk>)
    requires Sound(w, p) && AllReadable(w, chunks)
    ensures Sound(w, Packed(w, p, chunks))
  {
    if chunks != [] {
      var n := |chunks| - 1;
      PackedIsSound(w, p, chunks[..n]);
      AppendedKeeps(w, Packed(w, p, chunks[..n]), chunks[n]);
    }
  }

  /** `q` has every file of `p` where it was, providing at least the same lines, under the same path. */
  ghost predicate Grows(p: Pack, q: Pack) {
    && |p.files| <= |q.files|
    && (forall i :: 0 <= i < |p.files| ==>
          Header(q.files[i]) == Header(p.files[i]) && Numbers(p.files[i].lines) <= Numbers(q.files[i].lines))
    && (forall path <- p.at :: path in q.at && q.at[path] == p.at[path])
    && forall id <- p.anchors :: id in q.anchors && q.anchors[id].0 == p.anchors[id].0
  }

  lemma GrowsPut(p: Pack, q: Pack, s: nat, e: Entry, path: Path)
    requires Admitted(p, q, s, e, path) && (path in p.at ==> Numbers(p.files[s].lines) <= Numbers(e.lines))
    requires e.id in p.anchors ==> p.anchors[e.id].0 == path
    ensures Grows(p, q)
  {}

  lemma AppendedGrows(w: World, p: Pack, c: Chunk)
    requires Readable(w, c) && Sound(w, p)
    ensures Grows(p, Appended(w, p, c))
  {
    if Admits(w, p, c) {
      AdmitsAsPut(w, p, c);
      GrownNumbers(w, Target(p, c), c);
      IdsAreNew(p);
      GrowsPut(p, Appended(w, p, c), Slot(p, c), Grown(w, Target(p, c), c), c.path);
    }
  }

  lemma IdsAreNew(p: Pack)
    requires Numbered(p.files)
    ensures RelatedFile(|p.files| + 1) !in Ids(p.files)
  {}

  lemma GrowsOn(p: Pack, q: Pack, r: Pack)
    requires Grows(p, q) && Grows(q, r)
    ensures Grows(p, r)
  {
    forall i | 0 <= i < |p.files|
      ensures Header(r.files[i]) == Header(p.files[i]) && Numbers(p.files[i].lines) <= Numbers(r.files[i].lines)
    {
      assert Header(q.files[i]) == Header(p.files[i]);
      assert Header(r.files[i]) == Header(q.files[i]);
    }
  }

  lemma LastGrows(w: World, p: Pack, chunks: seq<Chunk>)
    requires Sound(w, p) && chunks != [] && AllReadable(w, chunks)
    ensures Grows(Packed(w, p, chunks[..|chunks| - 1]), Packed(w, p, chunks))
  {
    PackedIsSound(w, p, chunks[..|chunks| - 1]);
    AppendedGrows(w, Packed(w, p, chunks[..|chunks| - 1]), chunks[|chunks| - 1]);
  }

  lemma GrowsItself(p: Pack)
    ensures Grows(p, p)
  {}

  lemma {:induction false} PackedGrows(w: World, p: Pack, chunks: seq<Chunk>, k: nat)
    requires Sound(w, p) && AllReadable(w, chunks) && k <= |chunks|
    ensures Grows(Packed(w, p, chunks[..k]), Packed(w, p, chunks))
    decreases |chunks|
  {
    if k == |chunks| {
      assert chunks[..k] == chunks;
      GrowsItself(Packed(w, p, chunks));
    } else {
      var n := |chunks| - 1;
      assert chunks[..n][..k] == chunks[..k];
      PackedGrows(w, p, chunks[..n], k);
      LastGrows(w, p, chunks);
      GrowsOn(Packed(w, p, chunks[..k]), Packed(w, p, chunks[..n]), Packed(w, p, chunks));
    }
  }

  /** The protected chunks that were rejected, each against the files as they were at its turn. */
  function Misses(w: World, p: Pack, chunks: seq<Chunk>): nat
    requires Indexed(p) && AllReadable(w, chunks)
  {
    if chunks == [] then 0
    else
      var n := |chunks| - 1;
      Misses(w, p, chunks[..n])
      + if chunks[n].protected && !Admits(w, Packed(w, p, chunks[..n]), chunks[n]) then 1 else 0
  }

  /** An admitted chunk stays; and the count of missing protected chunks is the number of those that
      were not admitted. */
  lemma {:induction false} AdmittedStay(w: World, p: Pack, chunks: seq<Chunk>)
    requires Sound(w, p) && AllReadable(w, chunks)
    ensures var q := Packed(w, p, chunks);
            && q.missing == p.missing + Misses(w, p, chunks)
            && forall k :: 0 <= k < |chunks| && Admits(w, Packed(w, p, chunks[..k]), chunks[k]) ==>
                 Provides(q, chunks[k])
  {
    forall k | 0 <= k < |chunks| && Admits(w, Packed(w, p, chunks[..k]), chunks[k])
      ensures Provides(Packed(w, p, chunks), chunks[k])
    {
      AdmittedStays(w, p, chunks, k);
    }
    MissesCounted(w, p, chunks);
  }

  lemma PackedStep(w: World, p: Pack, chunks: seq<Chunk>, k: nat)
    requires Indexed(p) && AllReadable(w, chunks) && k < |chunks|
    ensures Packed(w, p, chunks[..k + 1]) == Appended(w, Packed(w, p, chunks[..k]), chunks[k])
  {
    assert chunks[..k + 1][..k] == chunks[..k];
  }

  lemma AdmittedStays(w: World, p: Pack, chunks: seq<Chunk>, k: nat)
    requires Sound(w, p) && AllReadable(w, chunks) && k < |chunks|
    requires Admits(w, Packed(w, p, chunks[..k]), chunks[k])
    ensures Provides(Packed(w, p, chunks), chunks[k])
  {
    var at, next := Packed(w, p, chunks[..k]), Packed(w, p, chunks[..k + 1]);
    PackedStep(w, p, chunks, k);
    assert Provides(next, chunks[k]) by {
      PackedIsSound(w, p, chunks[..k]);
      AppendedKeeps(w, at, chunks[k]);
    }
    PackedGrows(w, p, chunks, k + 1);
    StillProvides(next, Packed(w, p, chunks), chunks[k]);
  }

  lemma StillProvides(p: Pack, q: Pack, c: Chunk)
    requires Provides(p, c) && Grows(p, q)
    ensures Provides(q, c)
  {}

  lemma {:induction false} MissesCounted(w: World, p: Pack, chunks: seq<Chunk>)
    requires Indexed(p) && AllReadable(w, chunks)
    ensures Packed(w, p, chunks).missing == p.missing + Misses(w, p, chunks)
  {
    if chunks != [] {
      MissesCounted(w, p, chunks[..|chunks| - 1]);
    }
  }

  // ---- Contents ----

  /** Each row is one of `first` (the prepared files) or an unchanged line of the pinned source. */
  ghost predicate Faithful(w: World, first: seq<Entry>, p: Pack) {
    forall i, r :: 0 <= i < |p.files| && r in p.files[i].lines ==>
      (i < |first| && r in first[i].lines) || SourceLine(w, p, i, r)
  }

  ghost predicate SourceLine(w: World, p: Pack, i: nat, r: Row) {
    && i < |p.files| && p.files[i].id in p.anchors && p.anchors[p.files[i].id].0 in w.sources
    && var source := w.sources[p.anchors[p.files[i].id].0];
       1 <= r.line <= |source| && r == SourceRow(source, r.line)
  }

  ghost predicate KeepsRows(first: seq<Entry>, p: Pack) {
    |first| <= |p.files| && forall i, r :: 0 <= i < |first| && r in first[i].lines ==> r in p.files[i].lines
  }

  /** The files that can still be extended - those whose path has a source - have consistent rows. */
  ghost predicate Growable(w: World, p: Pack) {
    Indexed(p) && forall path <- p.at :: path in w.sources ==> Consistent(p.files[p.at[path]].lines)
  }

  /** The rows of `e` are `rows` and source lines, and all of `rows` are there. */
  ghost predicate Extends(rows: seq<Row>, e: Entry, source: seq<string>) {
    && (forall r <- e.lines :: r in rows || (1 <= r.line <= |source| && r == SourceRow(source, r.line)))
    && (forall r <- rows :: r in e.lines) && Consistent(e.lines)
  }

  lemma GrownExtends(w: World, e: Entry, c: Chunk)
    requires Readable(w, c) && Consistent(e.lines)
    ensures Extends(e.lines, Grown(w, e, c), w.sources[c.path])
  {
    GrownNumbers(w, e, c);
    GrownKeepsConsistent(w, e, c);
    AscendingConsistent(Grown(w, e, c).lines);
  }

  lemma ContentsPut(w: World, first: seq<Entry>, p: Pack, q: Pack, s: nat, e: Entry, path: Path)
    requires Admitted(p, q, s, e, path) && Grows(p, q) && Faithful(w, first, p) && KeepsRows(first, p)
    requires path in w.sources && Extends(if path in p.at then p.files[s].lines else [], e, w.sources[path])
    ensures Faithful(w, first, q) && KeepsRows(first, q)
  {
    forall i, r | 0 <= i < |q.files| && r in q.files[i].lines
      ensures (i < |first| && r in first[i].lines) || SourceLine(w, q, i, r)
    {
      if i == s && !(path in p.at && r in p.files[s].lines) {
        assert SourceLine(w, q, i, r);
      } else {
        assert i < |p.files| && r in p.files[i].lines;
        assert SourceLine(w, p, i, r) ==> SourceLine(w, q, i, r) by {
          assert Header(q.files[i]) == Header(p.files[i]);
        }
      }
    }
  }

  lemma GrowablePut(w: World, p: Pack, q: Pack, s: nat, e: Entry, path: Path)
    requires Admitted(p, q, s, e, path) && PathsLead(p) && Growable(w, p) && Consistent(e.lines)
    ensures Growable(w, q)
  {
    forall r | r in q.at && r in w.sources
      ensures q.at[r] < |q.files| && Consistent(q.files[q.at[r]].lines)
    {
      assert r != path ==> p.at[r] != s || path !in p.at;
    }
  }

  ghost predicate Contents(w: World, first: seq<Entry>, p: Pack) {
    Faithful(w, first, p) && KeepsRows(first, p) && Growable(w, p)
  }

  lemma AppendedContents(w: World, first: seq<Entry>, p: Pack, c: Chunk)
    requires Readable(w, c) && Sound(w, p) && Contents(w, first, p)
    ensures Contents(w, first, Appended(w, p, c))
  {
    if Admits(w, p, c) {
      var q, s, e := Appended(w, p, c), Slot(p, c), Grown(w, Target(p, c), c);
      AdmitsAsPut(w, p, c);
      AppendedGrows(w, p, c);
      TargetConsistent(w, p, c);
      GrownExtends(w, Target(p, c), c);
      ContentsPut(w, first, p, q, s, e, c.path);
      GrowablePut(w, p, q, s, e, c.path);
    }
  }

  lemma TargetConsistent(w: World, p: Pack, c: Chunk)
    requires Readable(w, c) && Growable(w, p)
    ensures Consistent(Target(p, c).lines)
  {}

  lemma {:induction false} PackedContents(w: World, p: Pack, chunks: seq<Chunk>)
    requires Sound(w, p) && Growable(w, p) && AllReadable(w, chunks)
    ensures Contents(w, p.files, Packed(w, p, chunks))
  {
    if chunks != [] {
      var n := |chunks| - 1;
      PackedContents(w, p, chunks[..n]);
      PackedIsSound(w, p, chunks[..n]);
      AppendedContents(w, p.files, Packed(w, p, chunks[..n]), chunks[n]);
    }
  }

  // ---- The anchors handed on ----

  /** Rewriting every anchor from the provided lines at the end changes nothing. */
  lemma {:induction false} RefreshIsIdle(files: seq<Entry>, anchors: Anchors)
    requires forall e <- files :: e.id in anchors && anchors[e.id].1 == Numbers(e.lines)
    ensures Refreshed(files, anchors) == anchors
  {
    if files != [] {
      var n := |files| - 1;
      RefreshIsIdle(files[..n], anchors);
      assert files[n] in files;
    }
  }

  /** What collection asks of a file before it is extended, and that its flags agree. */
  ghost predicate Pinned(w: World, p: Pack) {
    Indexed(p) && forall path <- p.at :: path in w.sources ==>
      var lines := p.files[p.at[path]].lines; FromSource(lines, w.sources[path]) && FlagsAgree(lines)
  }

  lemma PinnedIsGrowable(w: World, p: Pack)
    requires Pinned(w, p)
    ensures Growable(w, p)
  {
    forall path | path in p.at && path in w.sources
      ensures Consistent(p.files[p.at[path]].lines)
    {
      PinnedRowsDifferByFlag(p.files[p.at[path]].lines, w.sources[path]);
    }
  }

  /** Packing a prepared bundle: budgets, at most four related files, unique ids, every original row
      and changed flag kept, every other row the pinned source line, and anchors that are the
      provided lines. */
  lemma PackedBundle(w: World, files: seq<Entry>, anchors: Anchors, chunks: seq<Chunk>)
    requires Prepared(w, files, anchors) && Pinned(w, Start(files, anchors)) && AllReadable(w, chunks)
    ensures var q := Packed(w, Start(files, anchors), chunks);
            && Sound(w, q) && Contents(w, files, q) && Grows(Start(files, anchors), q)
            && Refreshed(q.files, q.anchors) == q.anchors
            && q.missing == Misses(w, Start(files, anchors), chunks)
  {
    var p := Start(files, anchors);
    StartIsSound(w, files, anchors);
    PinnedIsGrowable(w, p);
    PackedIsSound(w, p, chunks);
    PackedContents(w, p, chunks);
    assert chunks[..0] == [];
    PackedGrows(w, p, chunks, 0);
    MissesCounted(w, p, chunks);
    var q := Packed(w, p, chunks);
    RefreshIsIdle(q.files, q.anchors);
  }

  /** In particular the changed rows of a file are exactly those it came with. */
  lemma ChangedRowsAreOriginal(w: World, first: seq<Entry>, p: Pack, i: nat, r: Row)
    requires Contents(w, first, p) && i < |p.files| && r.changed
    ensures r in p.files[i].lines <==> i < |first| && r in first[i].lines
  {
    if r in p.files[i].lines {
      assert !SourceLine(w, p, i, r);
    }
  }

  /** File ids are unique. */
  lemma IdsAreUnique(files: seq<Entry>, i: nat, j: nat)
    requires Numbered(files) && i < j < |files|
    ensures files[i].id != files[j].id
  {}
}
