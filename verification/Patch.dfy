/** The two readers of a unified diff (POSIX.1-2017, utility `diff`, "Diff -u or -U Output Format"): the
    validator `changed_lines` of app/domain/analysis/pipeline.py and the row marking inside `prepare`
    of app/domain/review/policy.py; both against a grammar of hunks. A patch is taken line by line,
    each line classified by how it begins. */
module Patch {
  import opened Options
  import opened SourceRows

  /** `@@ -oldStart,oldCount +start,newCount @@`, a count left out being 1; then lines that begin with
      `+`, `-`, a space or a backslash; and all others. */
  datatype Line = Header(oldStart: nat, oldCount: nat, start: nat, newCount: nat)
                | Added(text: string) | Removed(text: string) | Context(text: string) | NoNewline | Junk

  // ---- The grammar ----

  datatype Hunk = Hunk(oldStart: nat, oldCount: nat, start: nat, newCount: nat, body: seq<Line>) {
    function Head(): Line { Header(oldStart, oldCount, start, newCount) }
  }

  function Open(header: Line, body: seq<Line>): Hunk
    requires header.Header?
  {
    Hunk(header.oldStart, header.oldCount, header.start, header.newCount, body)
  }

  predicate InBody(l: Line) { l.Added? || l.Removed? || l.Context? || l.NoNewline? }

  /** Lines of a body on the old and on the new side. */
  function OldSide(body: seq<Line>): nat {
    if body == [] then 0 else OldSide(body[..|body| - 1]) + if Last(body).Removed? || Last(body).Context? then 1 else 0
  }

  function NewSide(body: seq<Line>): nat {
    if body == [] then 0 else NewSide(body[..|body| - 1]) + if Last(body).Added? || Last(body).Context? then 1 else 0
  }

  function Last<T>(s: seq<T>): T
    requires s != []
  {
    s[|s| - 1]
  }

  predicate Body(lines: seq<Line>) { forall i :: 0 <= i < |lines| ==> InBody(lines[i]) }

  /** The body is as long, on both sides, as the header says. */
  predicate Complete(h: Hunk) { Body(h.body) && OldSide(h.body) == h.oldCount && NewSide(h.body) == h.newCount }

  predicate AllBodies(hunks: seq<Hunk>) { forall i :: 0 <= i < |hunks| ==> Body(hunks[i].body) }

  predicate AllComplete(hunks: seq<Hunk>) { forall i :: 0 <= i < |hunks| ==> Complete(hunks[i]) }

  /** The last hunk with one more line. */
  function Longer(hunks: seq<Hunk>, l: Line): seq<Hunk>
    requires hunks != []
  {
    hunks[|hunks| - 1 := Last(hunks).(body := Last(hunks).body + [l])]
  }

  function Text(hunks: seq<Hunk>): seq<Line> {
    if hunks == [] then [] else Text(hunks[..|hunks| - 1]) + [Last(hunks).Head()] + Last(hunks).body
  }

  /** New-side line numbers of the additions of a body that begins at `start`, in order. */
  function Additions(start: nat, body: seq<Line>): seq<nat> {
    if body == [] then []
    else
      var rest := body[..|body| - 1];
      Additions(start, rest) + if Last(body).Added? then [start + NewSide(rest)] else []
  }

  function AllAdditions(hunks: seq<Hunk>): seq<nat> {
    if hunks == [] then []
    else AllAdditions(hunks[..|hunks| - 1]) + Additions(Last(hunks).start, Last(hunks).body)
  }

  function Deletions(body: seq<Line>): nat {
    if body == [] then 0 else Deletions(body[..|body| - 1]) + if Last(body).Removed? then 1 else 0
  }

  function AllDeletions(hunks: seq<Hunk>): nat {
    if hunks == [] then 0 else AllDeletions(hunks[..|hunks| - 1]) + Deletions(Last(hunks).body)
  }

  function Elements(s: seq<nat>): set<nat> { set x | x in s }

  /** "\ No newline" markers, which the validator also lets stand before the first hunk. */
  predicate Noise(lines: seq<Line>) { forall i :: 0 <= i < |lines| ==> lines[i].NoNewline? }

  // ---- changed_lines ----

  datatype Scanner = Scanner(oldLeft: nat, newLeft: nat, current: nat, hunk: bool, lines: set<nat>, added: nat,
                             removed: nat)

  /** One turn of the loop; None is `return None`. */
  function Step(s: Scanner, l: Line): Option<Scanner> {
    match l
    case Header(_, oldCount, start, newCount) =>
      if s.oldLeft != 0 || s.newLeft != 0 then None
      else Some(s.(oldLeft := oldCount, current := start, newLeft := newCount, hunk := true))
    case NoNewline => Some(s)
    case Added(_) =>
      if !s.hunk || s.newLeft == 0 then None
      else Some(s.(lines := s.lines + {s.current}, current := s.current + 1,
                   added := s.added + 1, newLeft := s.newLeft - 1))
    case Removed(_) =>
      if !s.hunk || s.oldLeft == 0 then None else Some(s.(removed := s.removed + 1, oldLeft := s.oldLeft - 1))
    case Context(_) =>
      if !s.hunk || s.newLeft == 0 || s.oldLeft == 0 then None
      else Some(s.(current := s.current + 1, newLeft := s.newLeft - 1, oldLeft := s.oldLeft - 1))
    case Junk => None
  }

  function Scan(lines: seq<Line>): Option<Scanner> {
    if lines == [] then Some(Scanner(0, 0, 0, false, {}, 0, 0))
    else match Scan(lines[..|lines| - 1])
      case None => None
      case Some(s) => Step(s, Last(lines))
  }

  predicate Finished(s: Scanner, additions: int, deletions: int) {
    s.hunk && s.newLeft == 0 && s.oldLeft == 0 && s.added == additions && s.removed == deletions
  }

  function Changed(lines: seq<Line>, additions: int, deletions: int): Option<set<nat>> {
    match Scan(lines)
    case None => None
    case Some(s) => if Finished(s, additions, deletions) then Some(s.lines) else None
  }

  lemma {:induction false} ScanFails(lines: seq<Line>, k: nat)
    requires k <= |lines| && Scan(lines[..k]).None?
    ensures Scan(lines).None?
  {
    if k == |lines| {
      assert lines[..k] == lines;
    } else {
      var n := |lines| - 1;
      assert lines[..n][..k] == lines[..k];
      ScanFails(lines[..n], k);
    }
  }

  method ChangedLines(patch: seq<Line>, additions: int, deletions: int) returns (r: Option<set<nat>>)
    ensures r == Changed(patch, additions, deletions)
  {
    var lines: set<nat>, added: nat, removed: nat := {}, 0, 0;
    var remainingOld: int, remainingNew: int, current: nat, hunk := 0, 0, 0, false;
    for i := 0 to |patch|
      invariant 0 <= remainingOld && 0 <= remainingNew
      invariant Scan(patch[..i]) == Some(Scanner(remainingOld, remainingNew, current, hunk, lines, added, removed))
    {
      var line := patch[i];
      assert patch[..i + 1][..i] == patch[..i] && Last(patch[..i + 1]) == line;
      ghost var next := Scan(patch[..i + 1]);
      if next.None? {
        ScanFails(patch, i + 1);
      }
      if line.Header? {
        if remainingOld != 0 || remainingNew != 0 {
          return None;
        }
        remainingOld, current, remainingNew := line.oldCount, line.start, line.newCount;
        hunk := true;
      } else if line.NoNewline? {
        continue;
      } else if hunk && line.Added? {
        lines := lines + {current};
        current := current + 1;
        added := added + 1;
        remainingNew := remainingNew - 1;
      } else if hunk && line.Removed? {
        removed := removed + 1;
        remainingOld := remainingOld - 1;
      } else if hunk && line.Context? {
        current := current + 1;
        remainingNew := remainingNew - 1;
        remainingOld := remainingOld - 1;
      } else {
        return None;
      }
      if remainingNew < 0 || remainingOld < 0 {
        return None;
      }
    }
    assert patch[..|patch|] == patch;
    var complete := hunk && remainingNew == 0 && remainingOld == 0;
    return if complete && added == additions && removed == deletions then Some(lines) else None;
  }

  // ---- The validator accepts exactly the grammar ----

  /** The lines read as markers before the first header, and one hunk for each header. */
  function Read(lines: seq<Line>): (seq<Line>, seq<Hunk>) {
    if lines == [] then ([], [])
    else
      var (noise, hunks) := Read(lines[..|lines| - 1]);
      if Last(lines).Header? then (noise, hunks + [Open(Last(lines), [])])
      else if hunks == [] then (noise + [Last(lines)], [])
      else (noise, Longer(hunks, Last(lines)))
  }

  /** All hunks are complete but the last, of which the scanner says what is left. */
  ghost predicate Reads(s: Scanner, noise: seq<Line>, hunks: seq<Hunk>) {
    && Noise(noise) && s.hunk == (hunks != [])
    && AllBodies(hunks)
    && (hunks == [] ==> s.oldLeft == 0 && s.newLeft == 0)
    && (hunks != [] ==>
          && AllComplete(hunks[..|hunks| - 1])
          && s.oldLeft + OldSide(Last(hunks).body) == Last(hunks).oldCount
          && s.newLeft + NewSide(Last(hunks).body) == Last(hunks).newCount
          && s.current == Last(hunks).start + NewSide(Last(hunks).body))
    && s.lines == Elements(AllAdditions(hunks)) && s.added == |AllAdditions(hunks)| && s.removed == AllDeletions(hunks)
  }

  lemma Opened(s: Scanner, noise: seq<Line>, hunks: seq<Hunk>, l: Line)
    requires Reads(s, noise, hunks) && l.Header? && Step(s, l).Some?
    ensures Reads(Step(s, l).value, noise, hunks + [Open(l, [])])
    ensures Text(hunks + [Open(l, [])]) == Text(hunks) + [l]
  {
    var more := hunks + [Open(l, [])];
    assert more[..|hunks|] == hunks;
    assert AllAdditions(more) == AllAdditions(hunks);
  }

  /** One more hunk, and one more line of a body. */
  lemma HunkSnoc(hunks: seq<Hunk>, h: Hunk)
    ensures AllAdditions(hunks + [h]) == AllAdditions(hunks) + Additions(h.start, h.body)
    ensures AllDeletions(hunks + [h]) == AllDeletions(hunks) + Deletions(h.body)
    ensures Text(hunks + [h]) == Text(hunks) + [h.Head()] + h.body
  {
    assert (hunks + [h])[..|hunks|] == hunks;
  }

  lemma LineSnoc(start: nat, body: seq<Line>, l: Line)
    ensures Additions(start, body + [l]) == Additions(start, body) + if l.Added? then [start + NewSide(body)] else []
    ensures Deletions(body + [l]) == Deletions(body) + if l.Removed? then 1 else 0
  {
    assert (body + [l])[..|body|] == body;
  }

  lemma LongerIs(hunks: seq<Hunk>, l: Line)
    requires hunks != []
    ensures var rest, h := hunks[..|hunks| - 1], Last(hunks);
            hunks == rest + [h] && Longer(hunks, l) == rest + [h.(body := h.body + [l])]
  {}

  lemma LongerAdditions(rest: seq<Hunk>, h: Hunk, l: Line)
    ensures var more, hunks := rest + [h.(body := h.body + [l])], rest + [h];
            && AllAdditions(more) == AllAdditions(hunks) + (if l.Added? then [h.start + NewSide(h.body)] else [])
            && AllDeletions(more) == AllDeletions(hunks) + (if l.Removed? then 1 else 0)
  {
    HunkSnoc(rest, h);
    HunkSnoc(rest, h.(body := h.body + [l]));
    LineSnoc(h.start, h.body, l);
    Regroup(AllAdditions(rest), Additions(h.start, h.body), if l.Added? then [h.start + NewSide(h.body)] else []);
  }

  lemma LongerText(rest: seq<Hunk>, h: Hunk, l: Line)
    ensures Text(rest + [h.(body := h.body + [l])]) == Text(rest + [h]) + [l]
  {
    HunkSnoc(rest, h);
    HunkSnoc(rest, h.(body := h.body + [l]));
    Regroup(Text(rest) + [h.Head()], h.body, [l]);
  }

  lemma Regroup<T>(a: seq<T>, b: seq<T>, c: seq<T>)
    ensures a + (b + c) == a + b + c
  {}

  lemma OneLineMore(body: seq<Line>, l: Line)
    requires Body(body) && InBody(l)
    ensures Body(body + [l])
    ensures OldSide(body + [l]) == OldSide(body) + if l.Removed? || l.Context? then 1 else 0
    ensures NewSide(body + [l]) == NewSide(body) + if l.Added? || l.Context? then 1 else 0
  {
    assert (body + [l])[..|body|] == body;
  }

  lemma Continued(s: Scanner, noise: seq<Line>, hunks: seq<Hunk>, l: Line)
    requires Reads(s, noise, hunks) && InBody(l) && hunks != [] && Step(s, l).Some?
    ensures Reads(Step(s, l).value, noise, Longer(hunks, l)) && Text(Longer(hunks, l)) == Text(hunks) + [l]
  {
    var more, rest, h := Longer(hunks, l), hunks[..|hunks| - 1], Last(hunks);
    LongerIs(hunks, l);
    LongerAdditions(rest, h, l);
    LongerText(rest, h, l);
    OneLineMore(h.body, l);
    assert more[..|more| - 1] == rest;
    assert AllBodies(more) by {
      assert forall i :: 0 <= i < |hunks| - 1 ==> more[i] == hunks[i];
    }
  }

  /** Whatever the validator has accepted so far, it has read as hunks. */
  lemma {:induction false} ScanReads(lines: seq<Line>)
    requires Scan(lines).Some?
    ensures var (noise, hunks) := Read(lines); Reads(Scan(lines).value, noise, hunks) && lines == noise + Text(hunks)
  {
    if lines != [] {
      var n := |lines| - 1;
      ScanReads(lines[..n]);
      var (noise, hunks) := Read(lines[..n]);
      var s, l := Scan(lines[..n]).value, lines[n];
      assert lines == lines[..n] + [l];
      if l.Header? {
        Opened(s, noise, hunks, l);
      } else if hunks != [] {
        Continued(s, noise, hunks, l);
      }
    }
  }

  lemma BodyEnds(lines: seq<Line>, body: seq<Line>)
    requires body != [] && Body(body)
    ensures var all, n := lines + body, |body| - 1;
            all[..|all| - 1] == lines + body[..n] && Last(all) == body[n] && InBody(body[n]) && Body(body[..n])
  {}

  lemma LongerBody(hunks: seq<Hunk>, h: Hunk, body: seq<Line>)
    requires body != []
    ensures var n := |body| - 1; var part := hunks + [h.(body := body[..n])];
            Last(part) == h.(body := body[..n]) && Longer(part, body[n]) == hunks + [h.(body := body)]
  {
    assert body[..|body| - 1] + [Last(body)] == body;
  }

  lemma HasRoom(s: Scanner, noise: seq<Line>, part: seq<Hunk>, h: Hunk, body: seq<Line>)
    requires body != [] && InBody(Last(body)) && OldSide(body) <= h.oldCount && NewSide(body) <= h.newCount
    requires part != [] && Reads(s, noise, part) && Last(part) == h.(body := body[..|body| - 1])
    ensures Step(s, Last(body)).Some?
  {}

  /** Step by step through a rendered body. */
  lemma {:induction false} ScanBody(lines: seq<Line>, noise: seq<Line>, hunks: seq<Hunk>, h: Hunk, body: seq<Line>)
    requires Scan(lines).Some? && Reads(Scan(lines).value, noise, hunks + [h.(body := [])])
    requires Body(body) && OldSide(body) <= h.oldCount && NewSide(body) <= h.newCount
    ensures Scan(lines + body).Some? && Reads(Scan(lines + body).value, noise, hunks + [h.(body := body)])
  {
    if body == [] {
      assert lines + body == lines;
    } else {
      var n := |body| - 1;
      ScanBody(lines, noise, hunks, h, body[..n]);
      var part := hunks + [h.(body := body[..n])];
      BodyEnds(lines, body);
      LongerBody(hunks, h, body);
      var s := Scan(lines + body[..n]).value;
      HasRoom(s, noise, part, h, body);
      Continued(s, noise, part, body[n]);
    }
  }

  lemma {:induction false} ScanNoise(noise: seq<Line>)
    requires Noise(noise)
    ensures Scan(noise) == Some(Scanner(0, 0, 0, false, {}, 0, 0))
  {
    if noise != [] {
      ScanNoise(noise[..|noise| - 1]);
    }
  }

  /** The text of hunks ends with its last hunk. */
  lemma TextEnds(noise: seq<Line>, hunks: seq<Hunk>)
    requires hunks != []
    ensures var h, before := Last(hunks), noise + Text(hunks[..|hunks| - 1]);
            && noise + Text(hunks) == before + [h.Head()] + h.body
            && (before + [h.Head()])[..|before|] == before && Last(before + [h.Head()]) == h.Head()
            && Open(h.Head(), []) == h.(body := []) && hunks[..|hunks| - 1] + [h] == hunks
  {
    var h, front := Last(hunks), hunks[..|hunks| - 1];
    TextSplits(hunks, front, h);
    RegroupText(noise, Text(front), h.Head(), h.body);
  }

  lemma TextSplits(hunks: seq<Hunk>, front: seq<Hunk>, h: Hunk)
    requires hunks != [] && h == Last(hunks) && front == hunks[..|hunks| - 1]
    ensures Text(hunks) == Text(front) + [h.Head()] + h.body && front + [h] == hunks
    ensures Open(h.Head(), []) == h.(body := [])
  {}

  lemma RegroupText(a: seq<Line>, b: seq<Line>, l: Line, c: seq<Line>)
    ensures a + (b + [l] + c) == a + b + [l] + c
    ensures (a + b + [l])[..|a + b|] == a + b && Last(a + b + [l]) == l
  {}

  lemma {:induction false} ScanText(noise: seq<Line>, hunks: seq<Hunk>)
    requires Noise(noise) && AllComplete(hunks)
    ensures Scan(noise + Text(hunks)).Some? && Reads(Scan(noise + Text(hunks)).value, noise, hunks)
  {
    if hunks == [] {
      assert noise + Text(hunks) == noise;
      ScanNoise(noise);
    } else {
      ScanText(noise, hunks[..|hunks| - 1]);
      TextEnds(noise, hunks);
      ScanHunk(noise + Text(hunks[..|hunks| - 1]), noise, hunks[..|hunks| - 1], Last(hunks));
    }
  }

  lemma ScanHunk(before: seq<Line>, noise: seq<Line>, hunks: seq<Hunk>, h: Hunk)
    requires Scan(before).Some? && Reads(Scan(before).value, noise, hunks) && AllComplete(hunks) && Complete(h)
    ensures var lines := before + [h.Head()] + h.body; Scan(lines).Some? && Reads(Scan(lines).value, noise, hunks + [h])
  {
    var s := Scan(before).value;
    assert (before + [h.Head()])[..|before|] == before && Open(h.Head(), []) == h.(body := []);
    assert hunks != [] ==> Complete(Last(hunks));
    Opened(s, noise, hunks, h.Head());
    ScanBody(before + [h.Head()], noise, hunks, h, h.body);
  }

  /** `noise` and `hunks` render to these lines, with these totals. */
  ghost predicate Derives(lines: seq<Line>, additions: int, deletions: int, noise: seq<Line>, hunks: seq<Hunk>) {
    && Noise(noise) && hunks != [] && AllComplete(hunks) && lines == noise + Text(hunks)
    && |AllAdditions(hunks)| == additions && AllDeletions(hunks) == deletions
  }

  /** Rendering a hunk list and validating it recovers its additions. */
  lemma RenderedIsAccepted(noise: seq<Line>, hunks: seq<Hunk>)
    requires Noise(noise) && hunks != [] && AllComplete(hunks)
    ensures Changed(noise + Text(hunks), |AllAdditions(hunks)|, AllDeletions(hunks))
              == Some(Elements(AllAdditions(hunks)))
  {
    ScanText(noise, hunks);
  }

  /** The validator accepts a line list if and only if the grammar derives it with these totals, and
      it then answers with the new-side positions of the additions. */
  lemma AcceptsTheGrammar(lines: seq<Line>, additions: int, deletions: int)
    ensures Changed(lines, additions, deletions).Some? <==>
              exists noise, hunks :: Derives(lines, additions, deletions, noise, hunks)
    ensures forall noise, hunks :: Derives(lines, additions, deletions, noise, hunks) ==>
              Changed(lines, additions, deletions) == Some(Elements(AllAdditions(hunks)))
  {
    if Changed(lines, additions, deletions).Some? {
      ScanReads(lines);
      var (noise, hunks) := Read(lines);
      assert Complete(Last(hunks));
      assert Derives(lines, additions, deletions, noise, hunks);
    }
    forall noise, hunks | Derives(lines, additions, deletions, noise, hunks)
      ensures Changed(lines, additions, deletions) == Some(Elements(AllAdditions(hunks)))
    {
      RenderedIsAccepted(noise, hunks);
    }
  }

  /** A line list has at most one reading as markers and hunks. */
  lemma {:induction false} ReadRender(noise: seq<Line>, hunks: seq<Hunk>)
    requires Noise(noise) && AllBodies(hunks)
    ensures Read(noise + Text(hunks)) == (noise, hunks)
  {
    if hunks == [] {
      assert noise + Text(hunks) == noise;
      ReadNoise(noise);
    } else {
      var h, before := Last(hunks), noise + Text(hunks[..|hunks| - 1]);
      ReadRender(noise, hunks[..|hunks| - 1]);
      TextEnds(noise, hunks);
      assert Read(before + [h.Head()]) == (noise, hunks[..|hunks| - 1] + [h.(body := [])]);
      ReadBody(before + [h.Head()], noise, hunks[..|hunks| - 1], h, h.body);
    }
  }

  lemma {:induction false} ReadNoise(noise: seq<Line>)
    requires Noise(noise)
    ensures Read(noise) == (noise, [])
  {
    if noise != [] {
      var n := |noise| - 1;
      ReadNoise(noise[..n]);
      assert noise[..n] + [noise[n]] == noise;
    }
  }

  lemma {:induction false} ReadBody(lines: seq<Line>, noise: seq<Line>, hunks: seq<Hunk>, h: Hunk, body: seq<Line>)
    requires Read(lines) == (noise, hunks + [h.(body := [])]) && Body(body)
    ensures Read(lines + body) == (noise, hunks + [h.(body := body)])
  {
    if body == [] {
      assert lines + body == lines;
    } else {
      var n := |body| - 1;
      ReadBody(lines, noise, hunks, h, body[..n]);
      var part := hunks + [h.(body := body[..n])];
      BodyEnds(lines, body);
      LongerBody(hunks, h, body);
    }
  }

  // ---- prepare ----

  /** The rows and the running line number after the loop. */
  function Rows(lines: seq<Line>): (seq<Row>, nat) {
    if lines == [] then ([], 0)
    else
      var (rows, number) := Rows(lines[..|lines| - 1]);
      match Last(lines)
      case Header(_, _, start, _) => (rows, start)
      case Added(text) => if number == 0 then (rows, number) else (rows + [Row(number, text, true)], number + 1)
      case Context(text) => if number == 0 then (rows, number) else (rows + [Row(number, text, false)], number + 1)
      case _ => (rows, number)
  }

  method PrepareRows(patch: seq<Line>) returns (lines: seq<Row>)
    ensures lines == Rows(patch).0
  {
    lines := [];
    var number: nat := 0;
    for i := 0 to |patch|
      invariant Rows(patch[..i]) == (lines, number)
    {
      var line := patch[i];
      assert patch[..i + 1][..i] == patch[..i];
      if line.Header? {
        number := line.start;
      } else if number != 0 && (line.Added? || line.Context?) {
        lines := lines + [Row(number, line.text, line.Added?)];
        number := number + 1;
      }
    }
    assert patch[..|patch|] == patch;
  }

  /** The new side of a body that begins at `start`, row by row. */
  function NewRows(start: nat, body: seq<Line>): seq<Row> {
    if body == [] then []
    else
      var rest, l := body[..|body| - 1], Last(body);
      NewRows(start, rest) + if l.Added? || l.Context? then [Row(start + NewSide(rest), l.text, l.Added?)] else []
  }

  /** Hunks that start at line 0 leave nothing. */
  function HeadRows(hunks: seq<Hunk>): seq<Row> {
    if hunks == [] then []
    else
      var h := Last(hunks);
      HeadRows(hunks[..|hunks| - 1]) + if h.start == 0 then [] else NewRows(h.start, h.body)
  }

  lemma {:induction false} RowsOfBody(lines: seq<Line>, rows: seq<Row>, start: nat, body: seq<Line>)
    requires Rows(lines) == (rows, start) && Body(body)
    ensures Rows(lines + body) == if start == 0 then (rows, 0) else (rows + NewRows(start, body), start + NewSide(body))
  {
    if body == [] {
      assert lines + body == lines && rows + NewRows(start, body) == rows;
    } else {
      var n := |body| - 1;
      RowsOfBody(lines, rows, start, body[..n]);
      BodyEnds(lines, body);
      var text := if body[n].Added? || body[n].Context? then body[n].text else "";
      var row := Row(start + NewSide(body[..n]), text, body[n].Added?);
      assert rows + (NewRows(start, body[..n]) + [row]) == rows + NewRows(start, body[..n]) + [row];
      assert rows + (NewRows(start, body[..n]) + []) == rows + NewRows(start, body[..n]);
    }
  }

  lemma {:induction false} RowsOfNoise(noise: seq<Line>)
    requires Noise(noise)
    ensures Rows(noise) == ([], 0)
  {
    if noise != [] {
      RowsOfNoise(noise[..|noise| - 1]);
    }
  }

  /** The rows prepared from a rendered patch are the new sides of its hunks; removed lines leave none. */
  lemma {:induction false} RowsOfHunks(noise: seq<Line>, hunks: seq<Hunk>)
    requires Noise(noise) && AllBodies(hunks)
    ensures Rows(noise + Text(hunks)).0 == HeadRows(hunks)
  {
    if hunks == [] {
      assert noise + Text(hunks) == noise;
      RowsOfNoise(noise);
    } else {
      var n, h := |hunks| - 1, Last(hunks);
      RowsOfHunks(noise, hunks[..n]);
      TextEnds(noise, hunks);
      RowsOfBody(noise + Text(hunks[..n]) + [h.Head()], HeadRows(hunks[..n]), h.start, h.body);
      assert HeadRows(hunks[..n]) + [] == HeadRows(hunks[..n]);
    }
  }

  /** Line numbers of the rows marked changed, in order. */
  function Marked(rows: seq<Row>): seq<nat> {
    if rows == [] then [] else Marked(rows[..|rows| - 1]) + if Last(rows).changed then [Last(rows).line] else []
  }

  lemma {:induction false} MarkedAppend(a: seq<Row>, b: seq<Row>)
    ensures Marked(a + b) == Marked(a) + Marked(b)
  {
    if b == [] {
      assert a + b == a;
    } else {
      var n := |b| - 1;
      MarkedAppend(a, b[..n]);
      assert (a + b)[..|a| + n] == a + b[..n];
    }
  }

  lemma MarkedOne(row: Row)
    ensures Marked([row]) == if row.changed then [row.line] else []
  {
    assert [row][..0] == [] && Last([row]) == row;
  }

  lemma {:induction false} MarkedNewRows(start: nat, body: seq<Line>)
    ensures Marked(NewRows(start, body)) == Additions(start, body)
  {
    if body != [] {
      var rest := body[..|body| - 1];
      MarkedNewRows(start, rest);
      var l := Last(body);
      if l.Added? || l.Context? {
        var row := Row(start + NewSide(rest), l.text, l.Added?);
        MarkedAppend(NewRows(start, rest), [row]);
        MarkedOne(row);
      } else {
        assert NewRows(start, rest) + [] == NewRows(start, rest);
      }
    }
  }

  predicate AddsAtZero(h: Hunk) { h.start == 0 && Additions(0, h.body) != [] }

  predicate NoneAddsAtZero(hunks: seq<Hunk>) { forall i :: 0 <= i < |hunks| ==> !AddsAtZero(hunks[i]) }

  /** The rows `prepare` marks changed are, one for one, the additions the validator counts - if and
      only if no hunk that starts at line 0 adds a line. */
  lemma {:induction false} ReadersAgree(hunks: seq<Hunk>)
    requires AllBodies(hunks)
    ensures |Marked(HeadRows(hunks))| <= |AllAdditions(hunks)|
    ensures Marked(HeadRows(hunks)) == AllAdditions(hunks) <==> NoneAddsAtZero(hunks)
  {
    if hunks != [] {
      var n, h := |hunks| - 1, Last(hunks);
      ReadersAgree(hunks[..n]);
      MarkedNewRows(h.start, h.body);
      MarkedAppend(HeadRows(hunks[..n]), if h.start == 0 then [] else NewRows(h.start, h.body));
      var a, b := Marked(HeadRows(hunks[..n])), AllAdditions(hunks[..n]);
      var c, d := if h.start == 0 then [] else Additions(h.start, h.body), Additions(h.start, h.body);
      assert Marked(HeadRows(hunks)) == a + c && AllAdditions(hunks) == b + d;
      AppendEqual(a, b, c, d);
      NoneAddsUpToLast(hunks);
    }
  }

  lemma NoneAddsUpToLast(hunks: seq<Hunk>)
    requires hunks != []
    ensures NoneAddsAtZero(hunks) <==> NoneAddsAtZero(hunks[..|hunks| - 1]) && !AddsAtZero(Last(hunks))
  {}

  lemma AppendEqual(a: seq<nat>, b: seq<nat>, c: seq<nat>, d: seq<nat>)
    requires |a| <= |b| && |c| <= |d|
    ensures a + c == b + d <==> a == b && c == d
  {
    if a + c == b + d {
      assert |a| == |b| && |c| == |d|;
      assert a == (a + c)[..|a|] && b == (b + d)[..|b|];
      assert c == (a + c)[|a|..] && d == (b + d)[|b|..];
    }
  }

  /** The two readers on the text of a patch: what the validator accepts, `prepare` marks. */
  lemma AcceptedIsMarked(lines: seq<Line>, additions: int, deletions: int)
    requires Changed(lines, additions, deletions).Some?
    requires forall l <- lines :: l.Header? ==> 1 <= l.start
    ensures Elements(Marked(Rows(lines).0)) == Changed(lines, additions, deletions).value
    ensures |Marked(Rows(lines).0)| == additions
  {
    ScanReads(lines);
    var (noise, hunks) := Read(lines);
    RowsOfHunks(noise, hunks);
    forall i | 0 <= i < |hunks|
      ensures !AddsAtZero(hunks[i])
    {
      HeaderInText(hunks, i);
    }
    ReadersAgree(hunks);
  }

  lemma {:induction false} HeaderInText(hunks: seq<Hunk>, i: nat)
    requires i < |hunks|
    ensures hunks[i].Head() in Text(hunks)
  {
    if i < |hunks| - 1 {
      HeaderInText(hunks[..|hunks| - 1], i);
    }
  }

  lemma OneAddition(h: Hunk, l: Line)
    requires h == Hunk(0, 0, 0, 1, [l]) && l.Added?
    ensures Complete(h) && AllAdditions([h]) == [0] && AllDeletions([h]) == 0
    ensures HeadRows([h]) == [] && Text([h]) == [h.Head(), l]
  {
    var body, none: seq<Line>, no: seq<Hunk> := h.body, [], [];
    assert body[..0] == none && Last(body) == l && [h][..0] == no && Last([h]) == h;
    assert OldSide(none) == 0 && NewSide(none) == 0 && Additions(0, none) == [] && Deletions(none) == 0;
    assert AllAdditions(no) == [] && AllDeletions(no) == 0 && HeadRows(no) == [] && Text(no) == [];
  }

  /** `@@ -0,0 +0,1 @@` with one addition: the validator counts line 0, `prepare` has no row. */
  lemma StartZeroDisagrees(text: string)
    ensures var lines := [Header(0, 0, 0, 1), Added(text)];
            Changed(lines, 1, 0) == Some({0}) && Rows(lines).0 == []
  {
    var h, none: seq<Line> := Hunk(0, 0, 0, 1, [Added(text)]), [];
    OneAddition(h, Added(text));
    RenderedIsAccepted(none, [h]);
    RowsOfHunks(none, [h]);
    assert none + Text([h]) == [Header(0, 0, 0, 1), Added(text)];
    assert Elements([0]) == {0};
  }

  /** Rows of one hunk are numbered without gaps from its start, as many as its header says. */
  lemma {:induction false} NewRowsAreConsecutive(start: nat, body: seq<Line>)
    ensures |NewRows(start, body)| == NewSide(body)
    ensures forall i :: 0 <= i < NewSide(body) ==> NewRows(start, body)[i].line == start + i
  {
    if body != [] {
      NewRowsAreConsecutive(start, body[..|body| - 1]);
    }
  }

  /** Hunks in order, as `diff` writes them. */
  predicate Ordered(hunks: seq<Hunk>) {
    && AllComplete(hunks)
    && forall i, j :: 0 <= i < j < |hunks| ==> hunks[i].start + hunks[i].newCount <= hunks[j].start
  }

  /** For such a patch the prepared rows are distinct and ascending. */
  lemma {:induction false} RowsAscend(hunks: seq<Hunk>)
    requires Ordered(hunks)
    ensures var rows := HeadRows(hunks);
            && (forall i, j :: 0 <= i < j < |rows| ==> rows[i].line < rows[j].line)
            && (hunks != [] ==> forall r <- rows :: r.line < Last(hunks).start + Last(hunks).newCount)
  {
    if hunks != [] {
      var n, h := |hunks| - 1, Last(hunks);
      RowsAscend(hunks[..n]);
      NewRowsAreConsecutive(h.start, h.body);
      AscendTogether(HeadRows(hunks[..n]), if h.start == 0 then [] else NewRows(h.start, h.body), h.start);
    }
  }

  /** Ascending rows before `start`, and rows numbered without gaps from there. */
  lemma AscendTogether(a: seq<Row>, b: seq<Row>, start: nat)
    requires forall i, j :: 0 <= i < j < |a| ==> a[i].line < a[j].line
    requires (forall r <- a :: r.line < start) && forall i :: 0 <= i < |b| ==> b[i].line == start + i
    ensures forall i, j :: 0 <= i < j < |a + b| ==> (a + b)[i].line < (a + b)[j].line
    ensures forall r <- a + b :: r.line < start + |b|
  {
    forall i, j | 0 <= i < j < |a + b|
      ensures (a + b)[i].line < (a + b)[j].line
    {
      assert i < |a| ==> (a + b)[i] in a;
    }
  }

  /** So no line of such a patch is claimed twice, and packing keeps all of its rows. */
  lemma OrderedIsConsistent(hunks: seq<Hunk>)
    requires Ordered(hunks)
    ensures Consistent(HeadRows(hunks)) && FlagsAgree(HeadRows(hunks))
  {
    RowsAscend(hunks);
    AscendingConsistent(HeadRows(hunks));
  }

  /** The loop of `prepare` on one more line. */
  function Next(state: (seq<Row>, nat), l: Line): (seq<Row>, nat) {
    var (rows, number) := state;
    if l.Header? then (rows, l.start)
    else if number != 0 && (l.Added? || l.Context?) then (rows + [Row(number, l.text, l.Added?)], number + 1)
    else (rows, number)
  }

  lemma RowsNext(before: seq<Line>, l: Line, lines: seq<Line>)
    requires lines == before + [l]
    ensures Rows(lines) == Next(Rows(before), l)
  {
    assert lines[..|lines| - 1] == before && Last(lines) == l;
  }

  /** A hunk of one new-side line, after whatever lines. */
  lemma OneLineHunk(before: seq<Line>, h: Hunk, l: Line, lines: seq<Line>)
    requires 1 <= h.start && (l.Added? || l.Context?) && lines == before + [h.Head()] + [l]
    ensures Rows(lines).0 == Rows(before).0 + [Row(h.start, l.text, l.Added?)]
  {
    RowsNext(before, h.Head(), before + [h.Head()]);
    RowsNext(before + [h.Head()], l, lines);
  }

  /** A patch of two of them. */
  lemma OneLineHunks(h: Hunk, a: Line, k: Hunk, b: Line)
    requires 1 <= h.start && 1 <= k.start && (a.Added? || a.Context?) && (b.Added? || b.Context?)
    ensures Rows([h.Head(), a, k.Head(), b]).0 == [Row(h.start, a.text, a.Added?), Row(k.start, b.text, b.Added?)]
  {
    var none: seq<Line> := [];
    OneLineHunk(none, h, a, [h.Head(), a]);
    OneLineHunk([h.Head(), a], k, b, [h.Head(), a, k.Head(), b]);
  }
}
