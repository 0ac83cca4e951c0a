/** Context packing (`append_chunk` in app/domain/review/context_selection.py): chunks of pinned source
    are tried one after another inside the payload of a review, and taken back out when a file or the
    whole no longer fits. Byte sizes are those of the serialized JSON; any size function will do. */
module Packing {
  import opened Options
  import opened Sorting
  import opened SourceRows

  type Path = string

  type Anchors = map<Id, (Path, set<nat>)>

  /** `f1`, `f2`, ... for changed files and `c9`, `c10`, ... for related ones. */
  datatype Id = ChangedFile(n: nat) | RelatedFile(n: nat)

  datatype Entry = Entry(id: Id, language: string, related: bool, lines: seq<Row>)

  datatype Chunk = Chunk(path: Path, numbers: seq<nat>, protected: bool)

  datatype Reason = RelatedContextLimit | ContextLimit | SourceUnavailable

  datatype Note = Note(id: Option<Id>, reason: Reason)

  /** What stays fixed during packing. */
  datatype World = World(sources: map<Path, seq<string>>, perFile: nat, maxInput: nat,
                         itemBytes: Entry -> nat, dataBytes: seq<Entry> -> nat)

  /** `at`: the position in `files` of the file of a path. */
  datatype Pack = Pack(files: seq<Entry>, at: map<Path, nat>, anchors: Anchors,
                       notes: seq<Note>, missing: nat)

  const MAX_RELATED := 4

  // ---- Specification ----

  function Extension(path: Path): string {
    if path == "" || path[|path| - 1] == '.' then "" else Extension(path[..|path| - 1]) + [path[|path| - 1]]
  }

  /** Rows by line number; a later row replaces an earlier one. */
  function Rows(lines: seq<Row>): (m: map<nat, Row>)
    ensures forall n :: n in m ==> m[n] in lines && m[n].line == n
    ensures m.Keys == Numbers(lines)
  {
    if lines == [] then map[]
    else
      var last := lines[|lines| - 1];
      assert lines == lines[..|lines| - 1] + [last];
      Rows(lines[..|lines| - 1])[last.line := last]
  }

  function Numbers(lines: seq<Row>): set<nat> { set r | r in lines :: r.line }

  function SourceRow(source: seq<string>, n: nat): Row
    requires 1 <= n <= |source|
  {
    Row(n, source[n - 1], false)
  }

  predicate InSource(numbers: seq<nat>, source: seq<string>) { forall n <- numbers :: 1 <= n <= |source| }

  /** The rows and, for each number that has none, the source line. */
  function Extended(rows: map<nat, Row>, numbers: seq<nat>, source: seq<string>): (m: map<nat, Row>)
    requires InSource(numbers, source)
    ensures (forall n :: n in rows ==> rows[n].line == n) ==> forall n :: n in m ==> m[n].line == n
  {
    rows + map n | n in numbers && n !in rows :: SourceRow(source, n)
  }

  function InOrder(rows: map<nat, Row>): seq<Row> {
    var numbers := Ascending(rows.Keys);
    seq(|numbers|, i requires 0 <= i < |numbers| => rows[numbers[i]])
  }

  lemma InOrderAt(rows: map<nat, Row>)
    ensures var numbers, sorted := Ascending(rows.Keys), InOrder(rows);
            |sorted| == |numbers| && forall i :: 0 <= i < |numbers| ==>
              numbers[i] in rows && sorted[i] == rows[numbers[i]]
  {
    var numbers := Ascending(rows.Keys);
    assert forall i :: 0 <= i < |numbers| ==> numbers[i] in numbers;
  }

  lemma InOrderHas(rows: map<nat, Row>)
    requires forall n :: n in rows ==> rows[n].line == n
    ensures forall r :: r in InOrder(rows) <==> r.line in rows && rows[r.line] == r
  {
    var numbers, sorted := Ascending(rows.Keys), InOrder(rows);
    InOrderAt(rows);
    forall n | n in rows
      ensures rows[n] in sorted
    {
      var i :| 0 <= i < |numbers| && numbers[i] == n;
      assert sorted[i] == rows[n];
    }
  }

  lemma InOrderNumbers(rows: map<nat, Row>)
    requires forall n :: n in rows ==> rows[n].line == n
    ensures Numbers(InOrder(rows)) == rows.Keys
    ensures forall r :: r in InOrder(rows) <==> r.line in rows && rows[r.line] == r
    ensures forall i, j :: 0 <= i < j < |InOrder(rows)| ==> InOrder(rows)[i].line < InOrder(rows)[j].line
  {
    InOrderAt(rows);
    InOrderHas(rows);
    forall n | n in rows.Keys
      ensures n in Numbers(InOrder(rows))
    {
      assert rows[n] in InOrder(rows) && rows[n].line == n;
    }
  }

  predicate Readable(w: World, c: Chunk) { c.path in w.sources && InSource(c.numbers, w.sources[c.path]) }

  predicate AllReadable(w: World, chunks: seq<Chunk>) { forall i :: 0 <= i < |chunks| ==> Readable(w, chunks[i]) }

  function CountRelated(files: seq<Entry>): nat {
    if files == [] then 0 else CountRelated(files[..|files| - 1]) + if files[|files| - 1].related then 1 else 0
  }

  function Rejected(p: Pack, c: Chunk, note: Note): Pack {
    p.(notes := p.notes + [note], missing := p.missing + if c.protected then 1 else 0)
  }

  predicate Indexed(p: Pack) { forall q <- p.at :: p.at[q] < |p.files| }

  function Target(p: Pack, c: Chunk): Entry
    requires Indexed(p)
  {
    if c.path in p.at then p.files[p.at[c.path]] else Entry(RelatedFile(|p.files| + 1), Extension(c.path), true, [])
  }

  function Grown(w: World, e: Entry, c: Chunk): Entry
    requires Readable(w, c)
  {
    e.(lines := InOrder(Extended(Rows(e.lines), c.numbers, w.sources[c.path])))
  }

  function Slot(p: Pack, c: Chunk): nat { if c.path in p.at then p.at[c.path] else |p.files| }

  /** The files with `e` in the chunk's slot. */
  function Placed(p: Pack, c: Chunk, e: Entry): seq<Entry>
    requires Indexed(p)
  {
    if c.path in p.at then p.files[p.at[c.path] := e] else p.files + [e]
  }

  predicate Fits(w: World, files: seq<Entry>, e: Entry) {
    w.itemBytes(e) <= w.perFile && w.dataBytes(files) <= w.maxInput
  }

  predicate NoRoom(p: Pack, c: Chunk) { c.path !in p.at && MAX_RELATED <= CountRelated(p.files) }

  predicate Admits(w: World, p: Pack, c: Chunk)
    requires Readable(w, c) && Indexed(p)
  {
    var e := Grown(w, Target(p, c), c);
    !NoRoom(p, c) && Fits(w, Placed(p, c, e), e)
  }

  function Appended(w: World, p: Pack, c: Chunk): (q: Pack)
    requires Readable(w, c) && Indexed(p)
    ensures Indexed(q)
  {
    if NoRoom(p, c) then Rejected(p, c, Note(None, RelatedContextLimit))
    else if !Admits(w, p, c) then
      Rejected(p, c, Note(if c.path in p.at then Some(Target(p, c).id) else None, ContextLimit))
    else
      var e := Grown(w, Target(p, c), c);
      p.(files := Placed(p, c, e), at := p.at[c.path := Slot(p, c)],
         anchors := p.anchors[e.id := (c.path, Numbers(e.lines))])
  }

  predicate IdsKnown(files: seq<Entry>, anchors: Anchors) { forall i :: 0 <= i < |files| ==> files[i].id in anchors }

  /** `{path of f: f for f in files}` */
  function ByPath(files: seq<Entry>, anchors: Anchors): (at: map<Path, nat>)
    requires IdsKnown(files, anchors)
    ensures forall q :: q in at ==> at[q] < |files| && anchors[files[at[q]].id].0 == q
    ensures forall e <- files :: anchors[e.id].0 in at
  {
    if files == [] then map[]
    else
      var n := |files| - 1;
      assert files == files[..n] + [files[n]];
      ByPath(files[..n], anchors)[anchors[files[n].id].0 := n]
  }

  function Start(files: seq<Entry>, anchors: Anchors): Pack
    requires IdsKnown(files, anchors)
  {
    Pack(files, ByPath(files, anchors), anchors, [], 0)
  }

  function Packed(w: World, p: Pack, chunks: seq<Chunk>): (q: Pack)
    requires Indexed(p) && AllReadable(w, chunks)
    ensures Indexed(q)
  {
    if chunks == [] then p else Appended(w, Packed(w, p, chunks[..|chunks| - 1]), chunks[|chunks| - 1])
  }

  /** Each file's anchor, from the lines it provides in the end. */
  function Refreshed(files: seq<Entry>, anchors: Anchors): (r: Anchors)
    requires IdsKnown(files, anchors)
    ensures forall id :: id in anchors ==> id in r && r[id].0 == anchors[id].0
  {
    if files == [] then anchors
    else
      var e := files[|files| - 1];
      var rest := Refreshed(files[..|files| - 1], anchors);
      rest[e.id := (rest[e.id].0, Numbers(e.lines))]
  }

  // ---- The code ----

  class FileItem {
    const id: Id
    const language: string
    const related: bool
    var lines: seq<Row>

    constructor (id: Id, language: string, related: bool, lines: seq<Row>)
      ensures View() == Entry(id, language, related, lines)
    {
      this.id, this.language, this.related, this.lines := id, language, related, lines;
    }

    function View(): Entry
      reads this
    {
      Entry(id, language, related, lines)
    }
  }

  /** One more file is loaded. */
  function WithFile(p: Pack, e: Entry): Pack
    requires e.id in p.anchors
  {
    p.(files := p.files + [e], at := p.at[p.anchors[e.id].0 := |p.files|])
  }

  /** The start of the first `n` files. */
  function StartOf(entries: seq<Entry>, anchors: Anchors, n: nat): Pack
    requires n <= |entries| && IdsKnown(entries, anchors)
  {
    Start(entries[..n], anchors)
  }

  lemma StartNext(entries: seq<Entry>, anchors: Anchors, n: nat)
    requires n < |entries| && IdsKnown(entries, anchors)
    ensures StartOf(entries, anchors, n + 1) == WithFile(StartOf(entries, anchors, n), entries[n])
  {
    assert entries[..n + 1][..n] == entries[..n] && entries[..n + 1] == entries[..n] + [entries[n]];
  }

  predicate AllAnchored(p: Pack) { IdsKnown(p.files, p.anchors) }

  lemma AppendedAnchored(w: World, p: Pack, c: Chunk)
    requires Indexed(p) && Readable(w, c) && AllAnchored(p)
    ensures AllAnchored(Appended(w, p, c))
  {}

  class Collector {
    const world: World
    var files: seq<FileItem>
    var byPath: map<Path, FileItem>
    var anchors: Anchors
    var notes: seq<Note>
    var missing: nat
    ghost var view: Pack

    ghost function Items(): set<FileItem>
      reads this`files
    {
      set f | f in files
    }

    ghost predicate Shows(entries: seq<Entry>)
      reads this`files, files
    {
      |files| == |entries| && forall i :: 0 <= i < |files| ==> files[i].View() == entries[i]
    }

    ghost predicate Valid()
      reads this, files
    {
      && Shows(view.files) && Distinct() && Mapped(view.at)
      && anchors == view.anchors && notes == view.notes && missing == view.missing
    }

    ghost predicate Distinct()
      reads this`files
    {
      forall i, j :: 0 <= i < j < |files| ==> files[i] != files[j]
    }

    ghost predicate Mapped(at: map<Path, nat>)
      reads this`files, this`byPath
    {
      at.Keys == byPath.Keys && forall q :: q in at ==> at[q] < |files| && byPath[q] == files[at[q]]
    }

    constructor (world: World, entries: seq<Entry>, anchors: Anchors)
      requires IdsKnown(entries, anchors)
      ensures Valid() && this.world == world && view == Start(entries, anchors) && fresh(Items())
    {
      this.world, this.anchors, notes, missing := world, anchors, [], 0;
      files, byPath := [], map[];
      view := Pack([], map[], anchors, [], 0);
      new;
      LoadAll(entries);
    }

    method LoadAll(entries: seq<Entry>)
      requires Valid() && IdsKnown(entries, anchors) && view == StartOf(entries, anchors, 0)
      modifies this`files, this`byPath, this`view
      ensures Valid() && view == Start(entries, anchors)
      ensures fresh(Items() - old(Items()))
    {
      for i := 0 to |entries|
        invariant Valid() && view == StartOf(entries, anchors, i)
        invariant fresh(Items() - old(Items()))
      {
        StartNext(entries, anchors, i);
        Load(entries[i]);
      }
      assert entries[..|entries|] == entries;
    }

    method Load(e: Entry)
      requires Valid() && e.id in anchors
      modifies this`files, this`byPath, this`view
      ensures Valid() && view == WithFile(old(view), e)
      ensures fresh(Items() - old(Items()))
    {
      var item := new FileItem(e.id, e.language, e.related, e.lines);
      files := files + [item];
      byPath := byPath[anchors[e.id].0 := item];
      view := WithFile(view, e);
    }

    method Refresh()
      requires Valid() && AllAnchored(view)
      modifies this`anchors
      ensures anchors == Refreshed(view.files, view.anchors)
    {
      for i := 0 to |files|
        invariant IdsKnown(view.files, anchors)
        invariant anchors == Refreshed(view.files[..i], view.anchors)
      {
        assert view.files[..i + 1][..i] == view.files[..i] && view.files[i] in view.files;
        var item := files[i];
        anchors := anchors[item.id := (anchors[item.id].0, Numbers(item.lines))];
      }
      assert view.files[..|files|] == view.files;
    }

    method AppendChunk(c: Chunk)
      requires Valid() && Readable(world, c)
      modifies this, Items()
      ensures Valid() && view == Appended(world, old(view), c)
      ensures fresh(Items() - old(Items()))
    {
      if c.path in byPath {
        Grow(byPath[c.path], c);
        return;
      }
      var count := CountRelatedItems();
      if count >= MAX_RELATED {
        Reject(Note(None, RelatedContextLimit), c);
        return;
      }
      GrowNew(c);
    }

    method Reject(note: Note, c: Chunk)
      requires Valid()
      modifies this`notes, this`missing, this`view
      ensures Valid() && view == Rejected(old(view), c, note) && files == old(files)
    {
      notes := notes + [note];
      missing := missing + if c.protected then 1 else 0;
      view := Rejected(view, c, note);
    }

    method Grow(item: FileItem, c: Chunk)
      requires Valid() && Readable(world, c) && c.path in byPath && item == byPath[c.path]
      modifies this, item
      ensures Valid() && view == Appended(world, old(view), c) && files == old(files)
    {
      var previous := item.lines;
      item.lines := Lines(previous, c);
      assert Trying(item, c);
      var large := TooLarge(item, c);
      if large {
        item.lines := previous;
        Reject(Note(Some(item.id), ContextLimit), c);
      } else {
        Admit(item, c);
      }
    }

    method GrowNew(c: Chunk)
      requires Valid() && Readable(world, c) && c.path !in byPath && !NoRoom(view, c)
      modifies this
      ensures Valid() && view == Appended(world, old(view), c)
      ensures fresh(Items() - old(Items()))
    {
      var item := NewItem(c);
      var large := TooLarge(item, c);
      if large {
        files := files[..|files| - 1];
        Reject(Note(None, ContextLimit), c);
      } else {
        Admit(item, c);
      }
    }

    /** A new item, with the chunk's rows, at the end of the files. */
    method NewItem(c: Chunk) returns (item: FileItem)
      requires Valid() && Readable(world, c) && c.path !in byPath && !NoRoom(view, c)
      modifies this`files
      ensures Trying(item, c) && fresh(item) && files == old(files) + [item]
    {
      item := new FileItem(RelatedFile(|files| + 1), Extension(c.path), true, Lines([], c));
      files := files + [item];
    }

    function Lines(previous: seq<Row>, c: Chunk): seq<Row>
      requires Readable(world, c)
    {
      InOrder(Extended(Rows(previous), c.numbers, world.sources[c.path]))
    }

    /** The chunk's rows are in `item`, and nothing else differs from `view`. */
    ghost predicate Trying(item: FileItem, c: Chunk)
      reads this, item, files
    {
      && Indexed(view) && Readable(world, c) && !NoRoom(view, c)
      && item.View() == Grown(world, Target(view, c), c)
      && Shows(Placed(view, c, item.View())) && item == files[Slot(view, c)]
      && Distinct() && Mapped(view.at)
      && anchors == view.anchors && notes == view.notes && missing == view.missing
    }

    method TooLarge(item: FileItem, c: Chunk) returns (b: bool)
      requires Trying(item, c)
      ensures b == !Admits(world, view, c)
    {
      var entries := Entries();
      assert entries == Placed(view, c, item.View());
      b := world.itemBytes(item.View()) > world.perFile || world.dataBytes(entries) > world.maxInput;
    }

    method Admit(item: FileItem, c: Chunk)
      requires Trying(item, c) && Admits(world, view, c)
      modifies this`byPath, this`anchors, this`view
      ensures Valid() && view == Appended(world, old(view), c) && files == old(files)
    {
      byPath := byPath[c.path := item];
      anchors := anchors[item.id := (c.path, Numbers(item.lines))];
      ghost var e := item.View();
      view := Pack(Placed(view, c, e), view.at[c.path := Slot(view, c)], anchors, notes, missing);
    }

    /** The payload's file list as it stands. */
    method Entries() returns (entries: seq<Entry>)
      ensures Shows(entries)
    {
      entries := [];
      for i := 0 to |files|
        invariant |entries| == i && forall k :: 0 <= k < i ==> files[k].View() == entries[k]
      {
        entries := entries + [files[i].View()];
      }
    }

    method CountRelatedItems() returns (n: nat)
      requires Shows(view.files)
      ensures n == CountRelated(view.files)
    {
      n := 0;
      for i := 0 to |files|
        invariant n == CountRelated(view.files[..i])
      {
        assert view.files[..i + 1][..i] == view.files[..i];
        n := n + if files[i].related then 1 else 0;
      }
      assert view.files[..|files|] == view.files;
    }
  }
}
