/** The report built from verified findings: `validate_result` (app/domain/review/policy.py, lines
    191-279) and `ground_assertions` (app/domain/review/grounded_claims.py), which lets an assertion
    mismatch that was computed from the code own its place in the report. */
module Reports {
  import opened Options
  import opened Findings
  import opened Sorting

  /** A file of the bundle: its path, its provided lines and those that are changed. `related` files
      were added for context. */
  datatype Provided = Provided(path: string, lines: set<nat>, changed: set<nat>, related: bool)

  type Bundle = b: map<nat, Provided> | forall f :: f in b ==> b[f].changed <= b[f].lines witness map[]

  /** `projected`: computed from the code rather than claimed by the provider. */
  datatype Entry = Entry(path: string, finding: Finding, projected: bool)

  datatype Report = Report(issues: seq<Entry>, questions: seq<Entry>)

  /** The checks on text, citations, quotes and suggestions: any predicate. */
  type Rest = Finding -> bool

  predicate Distinct(s: seq<nat>) { forall i, j :: 0 <= i < j < |s| ==> s[i] != s[j] }

  predicate Touches(s: seq<nat>, changed: set<nat>) { exists i :: 0 <= i < |s| && s[i] in changed }

  /** A finding that validation lets through. */
  predicate Admissible(b: Bundle, rest: Rest, f: Finding) {
    && (f.supported || f.severity != ERROR)
    && f.file in b && f.line in b[f.file].lines
    && Distinct(f.evidence) && f.line in f.evidence && (forall l <- f.evidence :: l in b[f.file].lines)
    && Touches(f.evidence, b[f.file].changed)
    && (f.supported <==> f.assumptions == [])
    && rest(f)
  }

  function Entered(b: Bundle, fs: seq<Finding>, supported: bool): seq<Entry>
    requires forall i :: 0 <= i < |fs| ==> fs[i].file in b
  {
    if fs == [] then []
    else
      var n := |fs| - 1;
      Entered(b, fs[..n], supported)
      + if fs[n].supported == supported then [Entry(b[fs[n].file].path, fs[n], false)] else []
  }

  predicate AllAdmissible(b: Bundle, rest: Rest, fs: seq<Finding>) {
    forall i :: 0 <= i < |fs| ==> Admissible(b, rest, fs[i])
  }

  function Validated(b: Bundle, rest: Rest, fs: seq<Finding>): Option<Report> {
    if AllAdmissible(b, rest, fs) then Some(Report(Entered(b, fs, true), Entered(b, fs, false))) else None
  }

  method ValidateResult(b: Bundle, rest: Rest, output: seq<Finding>) returns (r: Option<Report>)
    ensures r == Validated(b, rest, output)
  {
    var issues: seq<Entry>, questions: seq<Entry> := [], [];
    for i := 0 to |output|
      invariant AllAdmissible(b, rest, output[..i])
      invariant issues == Entered(b, output[..i], true) && questions == Entered(b, output[..i], false)
    {
      var issue := output[i];
      assert output[..i + 1][..i] == output[..i];
      if !issue.supported && issue.severity == ERROR {
        return None;
      }
      if issue.file !in b || issue.line !in b[issue.file].lines {
        return None;
      }
      var file := b[issue.file];
      if !Distinct(issue.evidence) || issue.line !in issue.evidence
        || (exists l :: l in issue.evidence && l !in file.lines)
         || !Touches(issue.evidence, file.changed) {
        return None;
      }
      if issue.supported != (issue.assumptions == []) || !rest(issue) {
        return None;
      }
      var entry := Entry(file.path, issue, false);
      if issue.supported {
        issues := issues + [entry];
      } else {
        questions := questions + [entry];
      }
    }
    assert output[..|output|] == output;
    r := Some(Report(issues, questions));
  }

  /** Positions of the findings that go to one list. */
  function Sources(fs: seq<Finding>, supported: bool): seq<nat> {
    if fs == [] then []
    else Sources(fs[..|fs| - 1], supported) + if Last(fs).supported == supported then [|fs| - 1] else []
  }

  /** One list of the report: the findings of one basis, in order. */
  lemma {:induction false} EnteredFrom(b: Bundle, fs: seq<Finding>, supported: bool)
    requires forall i :: 0 <= i < |fs| ==> fs[i].file in b
    ensures var es, from := Entered(b, fs, supported), Sources(fs, supported);
            && |es| == |from| && (forall i, j :: 0 <= i < j < |from| ==> from[i] < from[j])
            && (forall k :: 0 <= k < |es| ==>
                 from[k] < |fs| && es[k] == Entry(b[fs[from[k]].file].path, fs[from[k]], false))
    ensures forall i :: i in Sources(fs, supported) <==> 0 <= i < |fs| && fs[i].supported == supported
  {
    if fs != [] {
      var n := |fs| - 1;
      EnteredFrom(b, fs[..n], supported);
      var from := Sources(fs[..n], supported);
      assert forall k :: 0 <= k < |from| ==> from[k] in from;
    }
  }

  /** Every finding of a valid reply is in exactly one list: issues are what is supported without
      assumptions, questions what needs context, and none of these is an error. */
  lemma ValidatedPartitions(b: Bundle, rest: Rest, fs: seq<Finding>)
    requires Validated(b, rest, fs).Some?
    ensures var r := Validated(b, rest, fs).value;
            && |r.issues| + |r.questions| == |fs|
            && (forall e <- r.issues :: e.finding.supported && e.finding.assumptions == [])
            && (forall e <- r.questions ::
                  !e.finding.supported && e.finding.assumptions != [] && e.finding.severity != ERROR)
            && (forall e <- r.issues + r.questions ::
                  e.finding in fs && Admissible(b, rest, e.finding) && e.path == b[e.finding.file].path)
  {
    EnteredFrom(b, fs, true);
    EnteredFrom(b, fs, false);
    Partition(fs);
  }

  lemma {:induction false} Partition(fs: seq<Finding>)
    ensures |Sources(fs, true)| + |Sources(fs, false)| == |fs|
  {
    if fs != [] {
      Partition(fs[..|fs| - 1]);
    }
  }

  // ---- ground_assertions: the findings it derives ----

  /** An observed assertion of a file (path_observations.py). */
  datatype Observed = Observed(testLine: nat, matches: bool, visited: set<nat>)

  datatype Fact = Fact(file: nat, observations: seq<Observed>)

  /** Where a derived finding stands, and what it cites. */
  datatype Derived = Derived(file: nat, line: nat, testLine: nat)

  const MAX_DERIVED := 4

  function Mismatches(os: seq<Observed>, changed: set<nat>): (r: seq<Observed>)
    ensures forall o <- r :: o in os && !o.matches && changed * o.visited != {}
  {
    if os == [] then []
    else
      var n := |os| - 1;
      Mismatches(os[..n], changed) + if !os[n].matches && changed * os[n].visited != {} then [os[n]] else []
  }

  function FirstTwo(os: seq<Observed>): seq<Observed> { if |os| <= 2 then os else os[..2] }

  predicate Placed(ds: seq<Derived>, file: nat, line: nat) {
    exists i :: 0 <= i < |ds| && ds[i].file == file && ds[i].line == line
  }

  /** One mismatch: skipped when its place is taken or four are found. */
  function Derive(ds: seq<Derived>, file: nat, changed: set<nat>, o: Observed): seq<Derived>
    requires changed * o.visited != {}
  {
    var line := Least(changed * o.visited);
    if Placed(ds, file, line) || MAX_DERIVED <= |ds| then ds else ds + [Derived(file, line, o.testLine)]
  }

  /** The first two mismatches of a file, one after the other. */
  function DeriveEach(ds: seq<Derived>, file: nat, changed: set<nat>, os: seq<Observed>): seq<Derived>
    requires forall i :: 0 <= i < |os| ==> changed * os[i].visited != {}
  {
    if os == [] then ds else Derive(DeriveEach(ds, file, changed, os[..|os| - 1]), file, changed, os[|os| - 1])
  }

  function DeriveFile(b: Bundle, ds: seq<Derived>, fact: Fact): seq<Derived>
    requires fact.file in b
  {
    var file := b[fact.file];
    if file.related || file.changed == {} then ds
    else DeriveEach(ds, fact.file, file.changed, FirstTwo(Mismatches(fact.observations, file.changed)))
  }

  function DeriveAll(b: Bundle, facts: seq<Fact>): seq<Derived>
    requires forall i :: 0 <= i < |facts| ==> facts[i].file in b
  {
    if facts == [] then [] else DeriveFile(b, DeriveAll(b, facts[..|facts| - 1]), facts[|facts| - 1])
  }

  method DeriveFindings(b: Bundle, facts: seq<Fact>) returns (derived: seq<Derived>)
    requires forall i :: 0 <= i < |facts| ==> facts[i].file in b
    ensures derived == DeriveAll(b, facts)
  {
    derived := [];
    for i := 0 to |facts|
      invariant derived == DeriveAll(b, facts[..i])
    {
      assert facts[..i + 1][..i] == facts[..i];
      var fact := facts[i];
      var file := b[fact.file];
      if file.related || file.changed == {} {
        continue;
      }
      derived := DeriveInFile(derived, fact.file, file.changed, FirstTwo(Mismatches(fact.observations, file.changed)));
    }
    assert facts[..|facts|] == facts;
  }

  method DeriveInFile(start: seq<Derived>, file: nat, changed: set<nat>, mismatches: seq<Observed>)
    returns (derived: seq<Derived>)
    requires forall i :: 0 <= i < |mismatches| ==> changed * mismatches[i].visited != {}
    ensures derived == DeriveEach(start, file, changed, mismatches)
  {
    derived := start;
    for k := 0 to |mismatches|
      invariant derived == DeriveEach(start, file, changed, mismatches[..k])
    {
      var o := mismatches[k];
      assert mismatches[..k + 1][..k] == mismatches[..k];
      var line := Least(changed * o.visited);
      if exists i :: 0 <= i < |derived| && derived[i].file == file && derived[i].line == line {
        continue;
      }
      if |derived| >= MAX_DERIVED {
        FullStays(start, file, changed, mismatches, k);
        return;
      }
      derived := derived + [Derived(file, line, o.testLine)];
    }
    assert mismatches[..|mismatches|] == mismatches;
  }

  /** Once four are found the rest changes nothing. */
  lemma {:induction false} FullStays(ds: seq<Derived>, file: nat, changed: set<nat>, os: seq<Observed>, k: nat)
    requires (forall i :: 0 <= i < |os| ==> changed * os[i].visited != {}) && k <= |os|
    requires MAX_DERIVED <= |DeriveEach(ds, file, changed, os[..k])|
    ensures DeriveEach(ds, file, changed, os) == DeriveEach(ds, file, changed, os[..k])
  {
    if k < |os| {
      var n := |os| - 1;
      assert os[..n][..k] == os[..k];
      FullStays(ds, file, changed, os[..n], k);
    } else {
      assert os[..k] == os;
    }
  }

  ghost predicate WellPlaced(b: Bundle, ds: seq<Derived>) {
    && |ds| <= MAX_DERIVED
    && (forall i, j :: 0 <= i < j < |ds| ==> ds[i].file != ds[j].file || ds[i].line != ds[j].line)
    && (forall i :: 0 <= i < |ds| ==> ds[i].file in b && ds[i].line in b[ds[i].file].changed)
  }

  lemma {:induction false} EachIsWellPlaced(b: Bundle, ds: seq<Derived>, file: nat, os: seq<Observed>)
    requires file in b && WellPlaced(b, ds) && forall i :: 0 <= i < |os| ==> b[file].changed * os[i].visited != {}
    ensures WellPlaced(b, DeriveEach(ds, file, b[file].changed, os))
  {
    if os != [] {
      EachIsWellPlaced(b, ds, file, os[..|os| - 1]);
    }
  }

  lemma {:induction false} DerivedAreWellPlaced(b: Bundle, facts: seq<Fact>)
    requires forall i :: 0 <= i < |facts| ==> facts[i].file in b
    ensures WellPlaced(b, DeriveAll(b, facts))
  {
    if facts != [] {
      var before, fact := DeriveAll(b, facts[..|facts| - 1]), facts[|facts| - 1];
      DerivedAreWellPlaced(b, facts[..|facts| - 1]);
      if !b[fact.file].related && b[fact.file].changed != {} {
        EachIsWellPlaced(b, before, fact.file, FirstTwo(Mismatches(fact.observations, b[fact.file].changed)));
      }
    }
  }

  /** Evidence: the line and the test line, once each, ascending. */
  function Refs(d: Derived): seq<nat> {
    if d.line == d.testLine then [d.line]
    else if d.line < d.testLine then [d.line, d.testLine] else [d.testLine, d.line]
  }

  function Claim(d: Derived): Finding { Finding(d.file, d.line, WARNING, true, Refs(d), [], "", "", "") }

  function Claims(ds: seq<Derived>): (r: seq<Finding>)
    ensures |r| == |ds| && forall i :: 0 <= i < |ds| ==> r[i] == Claim(ds[i])
  {
    seq(|ds|, i requires 0 <= i < |ds| => Claim(ds[i]))
  }

  /** What is derived always passes the same validation, when the assertions are on provided lines. */
  lemma DerivedAreValid(b: Bundle, rest: Rest, ds: seq<Derived>)
    requires WellPlaced(b, ds) && (forall d <- ds :: d.testLine in b[d.file].lines) && forall d <- ds :: rest(Claim(d))
    ensures Validated(b, rest, Claims(ds)).Some? && Validated(b, rest, Claims(ds)).value.questions == []
    ensures var es := Validated(b, rest, Claims(ds)).value.issues;
            |es| == |ds| && forall i :: 0 <= i < |ds| ==> es[i] == Entry(b[ds[i].file].path, Claim(ds[i]), false)
  {
    var fs := Claims(ds);
    forall i | 0 <= i < |fs|
      ensures Admissible(b, rest, fs[i])
    {
      var d := ds[i];
      assert d in ds && Refs(d)[if d.testLine < d.line then 1 else 0] == d.line;
      assert Touches(Refs(d), b[d.file].changed);
    }
    AllSupported(b, fs);
  }

  lemma {:induction false} AllSupported(b: Bundle, fs: seq<Finding>)
    requires forall i :: 0 <= i < |fs| ==> fs[i].file in b && fs[i].supported
    ensures Entered(b, fs, false) == []
    ensures |Entered(b, fs, true)| == |fs|
    ensures forall i :: 0 <= i < |fs| ==> Entered(b, fs, true)[i] == Entry(b[fs[i].file].path, fs[i], false)
  {
    if fs != [] {
      AllSupported(b, fs[..|fs| - 1]);
    }
  }

  // ---- ground_assertions: the merge ----

  predicate At(e: Entry, path: string, line: nat) { e.path == path && e.finding.line == line }

  function Elsewhere(es: seq<Entry>, path: string, line: nat): seq<Entry> {
    if es == [] then []
    else
      var n := |es| - 1;
      Elsewhere(es[..n], path, line) + if At(es[n], path, line) then [] else [es[n]]
  }

  /** One derived entry: it replaces all others at its anchor, unless ten remain. */
  function Grounded1(r: Report, e: Entry): Report {
    var issues := Elsewhere(r.issues, e.path, e.finding.line);
    var questions := Elsewhere(r.questions, e.path, e.finding.line);
    if MAX_FINDINGS <= |issues| + |questions| then r else Report(issues + [e.(projected := true)], questions)
  }

  predicate Room(r: Report, e: Entry) {
    |Elsewhere(r.issues, e.path, e.finding.line)| + |Elsewhere(r.questions, e.path, e.finding.line)| < MAX_FINDINGS
  }

  function Grounded(r: Report, es: seq<Entry>): Report {
    if es == [] then r else Grounded1(Grounded(r, es[..|es| - 1]), es[|es| - 1])
  }

  function Omitted(r: Report, es: seq<Entry>): nat {
    if es == [] then 0
    else
      var n := |es| - 1;
      Omitted(r, es[..n]) + if Room(Grounded(r, es[..n]), es[n]) then 0 else 1
  }

  method Ground(result: Report, checked: seq<Entry>) returns (r: Report, added: nat, omitted: nat)
    ensures r == Grounded(result, checked) && omitted == Omitted(result, checked) && added + omitted == |checked|
  {
    r, added, omitted := result, 0, 0;
    for i := 0 to |checked|
      invariant r == Grounded(result, checked[..i]) && omitted == Omitted(result, checked[..i]) && added + omitted == i
    {
      assert checked[..i + 1][..i] == checked[..i];
      var item := checked[i];
      var issues := Elsewhere(r.issues, item.path, item.finding.line);
      var questions := Elsewhere(r.questions, item.path, item.finding.line);
      if |issues| + |questions| >= MAX_FINDINGS {
        omitted := omitted + 1;
        continue;
      }
      r := Report(issues + [item.(projected := true)], questions);
      added := added + 1;
    }
    assert checked[..|checked|] == checked;
  }

  lemma {:induction false} ElsewhereIs(es: seq<Entry>, path: string, line: nat)
    ensures |Elsewhere(es, path, line)| <= |es|
    ensures forall e :: e in Elsewhere(es, path, line) <==> e in es && !At(e, path, line)
  {
    if es != [] {
      var n := |es| - 1;
      ElsewhereIs(es[..n], path, line);
      assert es == es[..n] + [es[n]];
    }
  }

  ghost predicate Anchored(es: seq<Entry>) {
    forall i, j :: 0 <= i < j < |es| ==> es[i].path != es[j].path || es[i].finding.line != es[j].finding.line
  }

  /** `e` is in the report and has its anchor to itself. */
  ghost predicate Owns(r: Report, e: Entry) {
    && e in r.issues && (forall x <- r.issues :: At(x, e.path, e.finding.line) ==> x == e)
    && forall x <- r.questions :: !At(x, e.path, e.finding.line)
  }

  lemma OwnsNow(r: Report, e: Entry)
    requires Room(r, e)
    ensures Owns(Grounded1(r, e), e.(projected := true))
  {
    ElsewhereIs(r.issues, e.path, e.finding.line);
    ElsewhereIs(r.questions, e.path, e.finding.line);
  }

  lemma OwnsOn(r: Report, e: Entry, d: Entry)
    requires Owns(r, e) && (d.path != e.path || d.finding.line != e.finding.line)
    ensures Owns(Grounded1(r, d), e)
  {
    ElsewhereIs(r.issues, d.path, d.finding.line);
    ElsewhereIs(r.questions, d.path, d.finding.line);
  }

  /** Derived findings have different anchors if and only if no two on one line number are in files of
      one path. */
  lemma DerivedAreAnchored(b: Bundle, rest: Rest, ds: seq<Derived>)
    requires WellPlaced(b, ds) && (forall d <- ds :: d.testLine in b[d.file].lines)
             && (forall d <- ds :: rest(Claim(d)))
    ensures Validated(b, rest, Claims(ds)).Some?
    ensures Anchored(Validated(b, rest, Claims(ds)).value.issues) <==> PathsDiffer(b, ds)
  {
    DerivedAreValid(b, rest, ds);
    var es := Validated(b, rest, Claims(ds)).value.issues;
    if Anchored(es) {
      forall i, j | 0 <= i < j < |ds| && ds[i].line == ds[j].line
        ensures b[ds[i].file].path != b[ds[j].file].path
      {
        assert es[i].finding.line == es[j].finding.line;
      }
    }
  }

  ghost predicate PathsDiffer(b: Bundle, ds: seq<Derived>)
    requires WellPlaced(b, ds)
  {
    forall i, j :: 0 <= i < j < |ds| && ds[i].line == ds[j].line ==> b[ds[i].file].path != b[ds[j].file].path
  }

  /** The report never grows past ten. */
  lemma {:induction false} GroundingKeepsTheCap(r: Report, es: seq<Entry>)
    requires |r.issues| + |r.questions| <= MAX_FINDINGS
    ensures |Grounded(r, es).issues| + |Grounded(r, es).questions| <= MAX_FINDINGS
  {
    if es != [] {
      GroundingKeepsTheCap(r, es[..|es| - 1]);
    }
  }

  /** The last entry of `es` at the anchor of its entry `k`. */
  function LastAt(es: seq<Entry>, k: nat): Entry
    requires k < |es|
  {
    var n := |es| - 1;
    if k == n || At(es[n], es[k].path, es[k].finding.line) then es[n] else LastAt(es[..n], k)
  }

  lemma {:induction false} LastIsAtAnchor(es: seq<Entry>, k: nat)
    requires k < |es|
    ensures At(LastAt(es, k), es[k].path, es[k].finding.line)
  {
    var n := |es| - 1;
    if k < n && !At(es[n], es[k].path, es[k].finding.line) {
      LastIsAtAnchor(es[..n], k);
    }
  }

  /** The owner of an anchor makes room by leaving it. */
  lemma ReplacedHasRoom(r: Report, e: Entry, d: Entry)
    requires |r.issues| + |r.questions| <= MAX_FINDINGS && Owns(r, e) && At(d, e.path, e.finding.line)
    ensures Room(r, d)
  {
    ElsewhereDrops(r.issues, e, d.path, d.finding.line);
    ElsewhereIs(r.questions, d.path, d.finding.line);
  }

  lemma {:induction false} ElsewhereDrops(es: seq<Entry>, e: Entry, path: string, line: nat)
    requires e in es && At(e, path, line)
    ensures |Elsewhere(es, path, line)| < |es|
  {
    var n := |es| - 1;
    if es[n] == e {
      ElsewhereIs(es[..n], path, line);
    } else {
      ElsewhereDrops(es[..n], e, path, line);
    }
  }

  /** One more derived finding: at the owner's anchor it replaces the owner, elsewhere it leaves it. */
  lemma OwnerAfter(r: Report, owner: Entry, e: Entry)
    requires |r.issues| + |r.questions| <= MAX_FINDINGS && Owns(r, owner)
    ensures Owns(Grounded1(r, e), if At(e, owner.path, owner.finding.line) then e.(projected := true) else owner)
  {
    if At(e, owner.path, owner.finding.line) {
      ReplacedHasRoom(r, owner, e);
      OwnsNow(r, e);
    } else {
      OwnsOn(r, owner, e);
    }
  }

  /** Once one of them had room, the last derived finding at an anchor owns it. */
  lemma {:induction false} LastOwnsItsAnchor(r: Report, es: seq<Entry>, k: nat)
    requires |r.issues| + |r.questions| <= MAX_FINDINGS && k < |es| && Room(Grounded(r, es[..k]), es[k])
    ensures Owns(Grounded(r, es), LastAt(es, k).(projected := true))
  {
    var n := |es| - 1;
    if k == n {
      OwnsNow(Grounded(r, es[..n]), es[n]);
    } else {
      assert es[..n][..k] == es[..k];
      LastOwnsItsAnchor(r, es[..n], k);
      LastAfter(r, Grounded(r, es[..n]), es, k, LastAt(es[..n], k));
    }
  }

  lemma LastAfter(r: Report, before: Report, es: seq<Entry>, k: nat, last: Entry)
    requires |r.issues| + |r.questions| <= MAX_FINDINGS && k < |es| - 1
    requires before == Grounded(r, es[..|es| - 1]) && last == LastAt(es[..|es| - 1], k)
    requires Owns(before, last.(projected := true))
    ensures Owns(Grounded1(before, es[|es| - 1]), LastAt(es, k).(projected := true))
  {
    LastIsAtAnchor(es[..|es| - 1], k);
    GroundingKeepsTheCap(r, es[..|es| - 1]);
    OwnerAfter(before, last.(projected := true), es[|es| - 1]);
  }

  /** A derived finding that had room at its turn is in the end the only entry at its anchor, if and
      only if it is the last one derived there. */
  lemma GroundedOwnsItsAnchor(r: Report, es: seq<Entry>, k: nat)
    requires |r.issues| + |r.questions| <= MAX_FINDINGS && k < |es| && Room(Grounded(r, es[..k]), es[k])
    ensures Owns(Grounded(r, es), es[k].(projected := true)) <==>
              LastAt(es, k).(projected := true) == es[k].(projected := true)
  {
    LastOwnsItsAnchor(r, es, k);
    LastIsAtAnchor(es, k);
  }

  /** Findings with anchors of their own all own them. */
  lemma {:induction false} AnchoredAreLast(es: seq<Entry>, k: nat)
    requires Anchored(es) && k < |es|
    ensures LastAt(es, k) == es[k]
  {
    if k < |es| - 1 {
      AnchoredAreLast(es[..|es| - 1], k);
    }
  }

  lemma TwoAtOneAnchor(e: Entry, d: Entry)
    requires At(d, e.path, e.finding.line)
    ensures Grounded(Report([], []), [e, d]) == Report([d.(projected := true)], [])
            && Omitted(Report([], []), [e, d]) == 0
  {
    var empty, one := Report([], []), Report([e.(projected := true)], []);
    assert [e][..0] == [] && [e, d][..1] == [e];
    assert Grounded(empty, [e]) == Grounded1(empty, e) == one;
    assert one.issues[..0] == [] && Elsewhere(one.issues, d.path, d.finding.line) == [];
    assert Omitted(empty, [e]) == 0 && Room(one, d);
  }

  /** A file whose one assertion is contradicted by one changed line. */
  lemma OneDerived(b: Bundle, ds: seq<Derived>, fact: Fact, o: Observed, line: nat)
    requires fact.file in b && !b[fact.file].related && fact.observations == [o] && !o.matches
    requires b[fact.file].changed * o.visited == {line} && |ds| < MAX_DERIVED && !Placed(ds, fact.file, line)
    ensures DeriveFile(b, ds, fact) == ds + [Derived(fact.file, line, o.testLine)]
  {
    var changed := b[fact.file].changed;
    assert [o][..0] == [] && Mismatches([o], changed) == [o] == FirstTwo(Mismatches([o], changed));
    assert Least({line}) == line;
    assert DeriveEach(ds, fact.file, changed, [o]) == Derive(ds, fact.file, changed, o);
  }

  lemma DerivedInTurn(b: Bundle, facts: seq<Fact>, o: Observed, p: Observed, line: nat)
    requires |facts| == 2 && facts[0].file != facts[1].file && facts[0].file in b && facts[1].file in b
    requires !b[facts[0].file].related && facts[0].observations == [o] && !o.matches
    requires !b[facts[1].file].related && facts[1].observations == [p] && !p.matches
    requires b[facts[0].file].changed * o.visited == {line} == b[facts[1].file].changed * p.visited
    ensures DeriveAll(b, facts) == [Derived(facts[0].file, line, o.testLine), Derived(facts[1].file, line, p.testLine)]
  {
    var none: seq<Derived>, one, first := [], [Derived(facts[0].file, line, o.testLine)], facts[..1];
    OneDerived(b, none, facts[0], o, line);
    OneDerived(b, one, facts[1], p, line);
    assert first[..0] == [] && first[0] == facts[0];
    assert DeriveAll(b, first) == DeriveFile(b, none, facts[0]) == one;
    assert DeriveAll(b, facts) == DeriveFile(b, one, facts[1]);
  }

  /** A bundle with one path twice, as it comes from a change list that names a file twice, and an assertion
      of each that line 1 contradicts: both findings are derived and counted as added, and only the second
      is reported. */
  lemma OnePathTwice(b: Bundle, rest: Rest, facts: seq<Fact>, o: Observed, p: Observed, ds: seq<Derived>)
    requires b == map[1 := Provided("a.py", {1, 2, 3}, {1}, false), 2 := Provided("a.py", {1, 2, 3}, {1}, false)]
    requires facts == [Fact(1, [o]), Fact(2, [p])] && o.testLine == 2 && p.testLine == 3
    requires !o.matches && !p.matches && 1 in o.visited && 1 in p.visited
    requires ds == DeriveAll(b, facts) && forall d <- ds :: rest(Claim(d))
    ensures ds == [Derived(1, 1, 2), Derived(2, 1, 3)]
    ensures WellPlaced(b, ds) && !PathsDiffer(b, ds) && Validated(b, rest, Claims(ds)).Some?
    ensures var es, empty := Validated(b, rest, Claims(ds)).value.issues, Report([], []);
            && |es| == 2 && Omitted(empty, es) == 0 && es[0].finding != es[1].finding
            && Grounded(empty, es) == Report([es[1].(projected := true)], [])
  {
    DerivedInTurn(b, facts, o, p, 1);
    TwiceGrounded(b, rest, ds);
  }

  lemma TwiceGrounded(b: Bundle, rest: Rest, ds: seq<Derived>)
    requires b == map[1 := Provided("a.py", {1, 2, 3}, {1}, false), 2 := Provided("a.py", {1, 2, 3}, {1}, false)]
    requires ds == [Derived(1, 1, 2), Derived(2, 1, 3)] && forall d <- ds :: rest(Claim(d))
    ensures WellPlaced(b, ds) && !PathsDiffer(b, ds) && Validated(b, rest, Claims(ds)).Some?
    ensures var es, empty := Validated(b, rest, Claims(ds)).value.issues, Report([], []);
            && |es| == 2 && Omitted(empty, es) == 0 && es[0].finding != es[1].finding
            && Grounded(empty, es) == Report([es[1].(projected := true)], [])
  {
    DerivedAreValid(b, rest, ds);
    var es := Validated(b, rest, Claims(ds)).value.issues;
    assert es == [es[0], es[1]] && es[0].finding.evidence[1] == 2 && es[1].finding.evidence[1] == 3;
    TwoAtOneAnchor(es[0], es[1]);
  }

  /** Nothing at any other anchor is touched. */
  lemma {:induction false} GroundingTouchesNothingElse(r: Report, es: seq<Entry>, x: Entry)
    requires forall k :: 0 <= k < |es| ==> !At(x, es[k].path, es[k].finding.line)
    ensures x in Grounded(r, es).issues <==> x in r.issues
    ensures x in Grounded(r, es).questions <==> x in r.questions
  {
    if es != [] {
      var n := |es| - 1;
      var before := Grounded(r, es[..n]);
      GroundingTouchesNothingElse(r, es[..n], x);
      ElsewhereIs(before.issues, es[n].path, es[n].finding.line);
      ElsewhereIs(before.questions, es[n].path, es[n].finding.line);
      assert !At(x, es[n].path, es[n].finding.line) && x != es[n].(projected := true);
    }
  }
}
