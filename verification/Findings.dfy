/** From the provider's findings to the report: `apply_verification` (app/domain/review/verification.py),
    `validate_result` (app/domain/review/policy.py) and the merge of independently computed findings in
    `ground_assertions` (app/domain/review/grounded_claims.py). Replies are taken as parsed. */
module Findings {
  import opened Options

  datatype Severity = INFO | WARNING | ERROR

  /** `rest` stands for title, evidence, suggestion, citations and quotes. */
  datatype Finding = Finding(file: nat, line: nat, severity: Severity, supported: bool, evidence: seq<nat>,
                             assumptions: seq<string>, trigger: string, consequence: string, rest: string)

  /** Text without surrounding white space; any such function will do. */
  type Strip = string -> string

  function Last<T>(s: seq<T>): T
    requires s != []
  {
    s[|s| - 1]
  }

  const MAX_FINDINGS := 10

  // ---- apply_verification ----

  datatype Action = Keep | Revise | Drop

  /** `confirmed`: the reason given is CONFIRMED. */
  datatype Decision = Decision(index: nat, action: Action, confirmed: bool, revised: Option<Finding>,
                               checked: Option<string>)

  datatype Verdict = Kept(finding: Finding) | Revised(finding: Finding) | Dropped

  predicate Checked(strip: Strip, d: Decision) {
    d.checked.Some? && d.checked.value != "" && strip(d.checked.value) != ""
  }

  /** What one decision makes of its finding; None is a refusal of the whole reply. */
  function Decide(strip: Strip, d: Decision, f: Finding): Option<Verdict> {
    if d.action.Revise? then
      if d.revised.None? then None
      else
        var r := d.revised.value;
        if r.file != f.file || r.line != f.line || (!f.supported && r.supported) || !Checked(strip, d) then None
        else Some(Revised(r.(consequence := d.checked.value)))
    else if d.revised.Some? || (d.action.Keep? != d.confirmed) then None
    else if d.action.Keep? then
      if !Checked(strip, d) then None
      else
        var f' := f.(consequence := d.checked.value);
        Some(if f.consequence != d.checked.value then Revised(f') else Kept(f'))
    else if d.checked.Some? then None
    else Some(Dropped)
  }

  /** sorted(decisions, key=index) */
  function Sorted(ds: seq<Decision>): seq<Decision> {
    if ds == [] then [] else Insert(Sorted(ds[..|ds| - 1]), Last(ds))
  }

  function Insert(s: seq<Decision>, d: Decision): seq<Decision> {
    if s == [] || Last(s).index <= d.index then s + [d] else Insert(s[..|s| - 1], d) + [Last(s)]
  }

  function Indices(ds: seq<Decision>): set<nat> { set d | d in ds :: d.index }

  /** set(range(n)) */
  function Range(n: nat): (r: set<nat>)
    ensures |r| == n && forall k: nat :: k in r <==> k < n
  {
    if n == 0 then {} else Range(n - 1) + {n - 1}
  }

  predicate Complete(ds: seq<Decision>, n: nat) { |ds| == n && Indices(ds) == Range(n) }

  datatype Counts = Counts(accepted: seq<Finding>, kept: nat, revised: nat, dropped: nat)

  function Count(t: Counts, v: Verdict): Counts {
    match v
    case Kept(f) => t.(accepted := t.accepted + [f], kept := t.kept + 1)
    case Revised(f) => t.(accepted := t.accepted + [f], revised := t.revised + 1)
    case Dropped => t.(dropped := t.dropped + 1)
  }

  /** Decisions one after another, each on the finding its index names. */
  function Tallied(strip: Strip, ds: seq<Decision>, draft: seq<Finding>): Option<Counts> {
    if ds == [] then Some(Counts([], 0, 0, 0))
    else match Tallied(strip, ds[..|ds| - 1], draft)
      case None => None
      case Some(t) =>
        if |draft| <= Last(ds).index then None
        else match Decide(strip, Last(ds), draft[Last(ds).index])
          case None => None
          case Some(v) => Some(Count(t, v))
  }

  /** Same file and line, and the same trigger and consequence but for white space. */
  predicate SameCause(strip: Strip, a: Finding, b: Finding) {
    a.file == b.file && a.line == b.line && strip(a.trigger) == strip(b.trigger)
    && strip(a.consequence) == strip(b.consequence)
  }

  predicate Known(strip: Strip, fs: seq<Finding>, f: Finding) {
    exists i :: 0 <= i < |fs| && SameCause(strip, fs[i], f)
  }

  function WithNew(strip: Strip, accepted: seq<Finding>, extra: seq<Finding>): (r: seq<Finding>)
    ensures |accepted| <= |r|
  {
    if extra == [] then accepted
    else
      var fs := WithNew(strip, accepted, extra[..|extra| - 1]);
      if Known(strip, fs, Last(extra)) then fs else fs + [Last(extra)]
  }

  datatype Verified = Verified(tally: Counts, findings: seq<Finding>, added: nat)

  function Verify(strip: Strip, ds: seq<Decision>, extra: seq<Finding>, draft: seq<Finding>): Option<Verified> {
    if !Complete(ds, |draft|) then None
    else match Tallied(strip, Sorted(ds), draft)
      case None => None
      case Some(t) =>
        var fs := WithNew(strip, t.accepted, extra);
        if |fs| > MAX_FINDINGS then None else Some(Verified(t, fs, |fs| - |t.accepted|))
  }

  method ApplyVerification(strip: Strip, decisions: seq<Decision>, newFindings: seq<Finding>, original: seq<Finding>)
    returns (r: Option<Verified>)
    ensures r == Verify(strip, decisions, newFindings, original)
  {
    if |decisions| != |original| || Indices(decisions) != Range(|original|) {
      return None;
    }
    var sorted := Sorted(decisions);
    InRange(decisions, |original|);
    var t := Tally(strip, sorted, original);
    if t.None? {
      return None;
    }
    var accepted, added := AppendNew(strip, t.value.accepted, newFindings);
    r := if |accepted| > MAX_FINDINGS then None else Some(Verified(t.value, accepted, added));
  }

  lemma InRange(ds: seq<Decision>, n: nat)
    requires Complete(ds, n)
    ensures forall k <- Indices(Sorted(ds)) :: k < n
  {
    SortedHas(ds);
  }

  method Tally(strip: Strip, sorted: seq<Decision>, original: seq<Finding>) returns (r: Option<Counts>)
    requires forall k <- Indices(sorted) :: k < |original|
    ensures r == Tallied(strip, sorted, original)
  {
    var accepted: seq<Finding>, kept: nat, revised: nat, dropped: nat := [], 0, 0, 0;
    for i := 0 to |sorted|
      invariant Tallied(strip, sorted[..i], original) == Some(Counts(accepted, kept, revised, dropped))
    {
      var d := sorted[i];
      assert sorted[..i + 1][..i] == sorted[..i] && Last(sorted[..i + 1]) == d;
      assert d.index in Indices(sorted);
      var f := original[d.index];
      var v := Decide(strip, d, f);
      if v.None? {
        TalliedFails(strip, sorted, original, i + 1);
        return None;
      }
      if d.action.Revise? {
        accepted := accepted + [v.value.finding];
        revised := revised + 1;
      } else if d.action.Keep? {
        accepted := accepted + [v.value.finding];
        if f.consequence != d.checked.value {
          revised := revised + 1;
        } else {
          kept := kept + 1;
        }
      } else {
        dropped := dropped + 1;
      }
    }
    assert sorted[..|sorted|] == sorted;
    r := Some(Counts(accepted, kept, revised, dropped));
  }

  method AppendNew(strip: Strip, start: seq<Finding>, newFindings: seq<Finding>)
    returns (accepted: seq<Finding>, added: nat)
    ensures accepted == WithNew(strip, start, newFindings) && |accepted| == |start| + added
  {
    accepted, added := start, 0;
    for i := 0 to |newFindings|
      invariant accepted == WithNew(strip, start, newFindings[..i]) && |accepted| == |start| + added
    {
      var f := newFindings[i];
      assert newFindings[..i + 1][..i] == newFindings[..i] && Last(newFindings[..i + 1]) == f;
      if exists k :: 0 <= k < |accepted| && SameCause(strip, accepted[k], f) {
        continue;
      }
      accepted := accepted + [f];
      added := added + 1;
    }
    assert newFindings[..|newFindings|] == newFindings;
  }

  lemma {:induction false} TalliedFails(strip: Strip, ds: seq<Decision>, draft: seq<Finding>, k: nat)
    requires k <= |ds| && Tallied(strip, ds[..k], draft).None?
    ensures Tallied(strip, ds, draft).None?
  {
    if k < |ds| {
      var n := |ds| - 1;
      assert ds[..n][..k] == ds[..k];
      TalliedFails(strip, ds[..n], draft, k);
    } else {
      assert ds[..k] == ds;
    }
  }

  lemma {:induction false} InsertHas(s: seq<Decision>, d: Decision)
    ensures |Insert(s, d)| == |s| + 1 && forall x :: x in Insert(s, d) <==> x in s || x == d
  {
    if s != [] && Last(s).index > d.index {
      InsertHas(s[..|s| - 1], d);
      assert s == s[..|s| - 1] + [Last(s)];
    }
  }

  lemma {:induction false} SortedHas(ds: seq<Decision>)
    ensures |Sorted(ds)| == |ds| && (forall x :: x in Sorted(ds) <==> x in ds) && Indices(Sorted(ds)) == Indices(ds)
  {
    if ds != [] {
      SortedHas(ds[..|ds| - 1]);
      InsertHas(Sorted(ds[..|ds| - 1]), Last(ds));
      assert ds == ds[..|ds| - 1] + [Last(ds)];
    }
  }

  ghost predicate InOrder(s: seq<Decision>) { forall i, j :: 0 <= i < j < |s| ==> s[i].index <= s[j].index }

  lemma {:induction false} InsertOrders(s: seq<Decision>, d: Decision)
    requires InOrder(s)
    ensures InOrder(Insert(s, d))
  {
    if s != [] && Last(s).index > d.index {
      var n := |s| - 1;
      InsertOrders(s[..n], d);
      InsertHas(s[..n], d);
      var r := Insert(s[..n], d);
      forall i | 0 <= i < |r|
        ensures r[i].index <= s[n].index
      {
        assert r[i] in r;
        assert r[i] == d || r[i] in s[..n];
      }
    }
  }

  lemma {:induction false} SortedOrders(ds: seq<Decision>)
    ensures InOrder(Sorted(ds))
  {
    if ds != [] {
      SortedOrders(ds[..|ds| - 1]);
      InsertOrders(Sorted(ds[..|ds| - 1]), Last(ds));
    }
  }

  function Positions(s: seq<Decision>): (r: seq<nat>)
    ensures |r| == |s| && forall i :: 0 <= i < |s| ==> r[i] == s[i].index
  {
    seq(|s|, i requires 0 <= i < |s| => s[i].index)
  }

  /** The numbers below `n`, all of them and no others. */
  ghost predicate Covers(xs: seq<nat>, n: nat) { forall k: nat :: k < n <==> k in xs }

  function Elements(xs: seq<nat>): (r: set<nat>)
    ensures |r| <= |xs| && forall x :: x in r <==> x in xs
  {
    if xs == [] then {}
    else
      var n := |xs| - 1;
      assert xs == xs[..n] + [xs[n]];
      Elements(xs[..n]) + {xs[n]}
  }

  lemma CoverNeedsLength(xs: seq<nat>, n: nat)
    requires Covers(xs, n)
    ensures n <= |xs|
  {
    assert Elements(xs) == Range(n);
  }

  /** Without its last, the greatest, such a list covers one less. */
  lemma LastIsGreatest(xs: seq<nat>, n: nat)
    requires |xs| == n && 0 < n && Covers(xs, n) && forall i, j :: 0 <= i < j < n ==> xs[i] <= xs[j]
    ensures xs[n - 1] == n - 1 && Covers(xs[..n - 1], n - 1)
  {
    var rest, last := xs[..n - 1], xs[n - 1];
    assert n - 1 in xs && last in xs;
    var k :| 0 <= k < n && xs[k] == n - 1;
    assert last == n - 1;
    AllButLast(xs, n);
    if n - 1 in rest {
      forall x: nat
        ensures x < n <==> x in rest
      {
        assert x in xs <==> x in rest || x == last;
      }
      CoverNeedsLength(rest, n);
    }
    forall x: nat
      ensures x < n - 1 <==> x in rest
    {
      assert x in xs <==> x in rest || x == last;
    }
  }

  lemma AllButLast(xs: seq<nat>, n: nat)
    requires |xs| == n && 0 < n
    ensures forall x: nat :: x in xs <==> x in xs[..n - 1] || x == xs[n - 1]
  {
    assert xs == xs[..n - 1] + [xs[n - 1]];
  }

  lemma {:induction false} EachNumberOnce(xs: seq<nat>, n: nat)
    requires |xs| == n && Covers(xs, n) && forall i, j :: 0 <= i < j < n ==> xs[i] <= xs[j]
    ensures forall i :: 0 <= i < n ==> xs[i] == i
  {
    if n != 0 {
      LastIsGreatest(xs, n);
      EachNumberOnce(xs[..n - 1], n - 1);
    }
  }

  lemma SortedByPosition(ds: seq<Decision>, n: nat)
    requires Complete(ds, n)
    ensures |Sorted(ds)| == n && forall i :: 0 <= i < n ==> Sorted(ds)[i].index == i && Sorted(ds)[i] in ds
  {
    SortedHas(ds);
    SortedOrders(ds);
    var xs := Positions(Sorted(ds));
    forall k: nat
      ensures k < n <==> k in xs
    {
      assert k < n <==> k in Indices(Sorted(ds));
      if k in Indices(Sorted(ds)) {
        var i :| 0 <= i < n && Sorted(ds)[i].index == k;
        assert xs[i] == k;
      }
    }
    EachNumberOnce(xs, n);
  }

  /** Draft positions of the findings that were not dropped. */
  function Survivors(ds: seq<Decision>): seq<nat> {
    if ds == [] then [] else Survivors(ds[..|ds| - 1]) + if Last(ds).action.Drop? then [] else [Last(ds).index]
  }

  /** `g` is what verification may make of draft finding `i`: at its place, no more certain, with the
      consequence that was checked. */
  ghost predicate NarrowsAt(draft: seq<Finding>, ds: seq<Decision>, i: nat, g: Finding) {
    && i < |draft| && i < |ds|
    && g.file == draft[i].file && g.line == draft[i].line && (g.supported ==> draft[i].supported)
    && ds[i].checked == Some(g.consequence)
  }

  /** Decisions in index order account for each draft finding exactly once. */
  lemma {:induction false} TallyAccounts(strip: Strip, ds: seq<Decision>, draft: seq<Finding>)
    requires Tallied(strip, ds, draft).Some? && forall i :: 0 <= i < |ds| ==> ds[i].index == i
    ensures var t, kept := Tallied(strip, ds, draft).value, Survivors(ds);
            && t.kept + t.revised + t.dropped == |ds| && |t.accepted| == t.kept + t.revised == |kept|
            && (forall k :: 0 <= k < |kept| ==> NarrowsAt(draft, ds, kept[k], t.accepted[k]))
            && (forall i, j :: 0 <= i < j < |kept| ==> kept[i] < kept[j])
  {
    if ds != [] {
      var n := |ds| - 1;
      TallyAccounts(strip, ds[..n], draft);
      assert Last(ds).index == n;
    }
  }

  lemma {:induction false} WithNewExtends(strip: Strip, accepted: seq<Finding>, extra: seq<Finding>)
    ensures var fs := WithNew(strip, accepted, extra);
            && accepted <= fs && |fs| <= |accepted| + |extra|
            && (forall k :: |accepted| <= k < |fs| ==> fs[k] in extra && !Known(strip, fs[..k], fs[k]))
            && (forall f <- extra :: Known(strip, fs, f))
  {
    if extra != [] {
      var n := |extra| - 1;
      var f := extra[n];
      WithNewExtends(strip, accepted, extra[..n]);
      assert extra == extra[..n] + [f];
      var before, fs := WithNew(strip, accepted, extra[..n]), WithNew(strip, accepted, extra);
      if fs != before {
        assert forall k :: 0 <= k < |before| ==> fs[..k] == before[..k];
        assert fs[..|before|] == before;
        assert SameCause(strip, fs[|before|], f);
        forall g | g in extra
          ensures Known(strip, fs, g)
        {
          if g in extra[..n] {
            var i :| 0 <= i < |before| && SameCause(strip, before[i], g);
            assert SameCause(strip, fs[i], g);
          }
        }
      }
    }
  }

  /** An accepted verification: every draft finding kept, revised or dropped exactly once, those left
      in draft order, none moved and none promoted; then the new ones that repeat nothing; ten at most. */
  lemma VerificationAccounts(strip: Strip, ds: seq<Decision>, extra: seq<Finding>, draft: seq<Finding>)
    requires Verify(strip, ds, extra, draft).Some?
    ensures var v, kept := Verify(strip, ds, extra, draft).value, Survivors(Sorted(ds));
            && v.tally.kept + v.tally.revised + v.tally.dropped == |draft|
            && |v.findings| == v.tally.kept + v.tally.revised + v.added <= MAX_FINDINGS
            && |kept| == v.tally.kept + v.tally.revised && (forall i, j :: 0 <= i < j < |kept| ==> kept[i] < kept[j])
            && (forall k :: 0 <= k < |kept| ==> NarrowsAt(draft, Sorted(ds), kept[k], v.findings[k]))
            && (forall k :: |kept| <= k < |v.findings| ==>
                 v.findings[k] in extra && !Known(strip, v.findings[..k], v.findings[k]))
            && (forall f <- extra :: Known(strip, v.findings, f))
  {
    SortedByPosition(ds, |draft|);
    TallyAccounts(strip, Sorted(ds), draft);
    WithNewExtends(strip, Tallied(strip, Sorted(ds), draft).value.accepted, extra);
  }

  // ---- When a verification is accepted ----

  /** A decision that fits its finding: kept as confirmed, or revised at its place and no more certain,
      either way with a checked consequence; or dropped, unconfirmed and with neither. */
  predicate Fitting(strip: Strip, d: Decision, f: Finding) {
    match d.action
    case Keep => d.confirmed && d.revised.None? && Checked(strip, d)
    case Revise =>
      && d.revised.Some? && d.revised.value.file == f.file && d.revised.value.line == f.line
      && (d.revised.value.supported ==> f.supported) && Checked(strip, d)
    case Drop => !d.confirmed && d.revised.None? && d.checked.None?
  }

  lemma DecidesFitting(strip: Strip, d: Decision, f: Finding)
    ensures Decide(strip, d, f).Some? <==> Fitting(strip, d, f)
    ensures Fitting(strip, d, f) ==>
              (Decide(strip, d, f).value.Dropped? <==> d.action.Drop?)
              && (!d.action.Drop? ==> Decide(strip, d, f).value.finding == Remains(d, f))
  {}

  /** What is left of a finding that is not dropped. */
  function Remains(d: Decision, f: Finding): Finding {
    var base := if d.action.Revise? && d.revised.Some? then d.revised.value else f;
    if d.checked.Some? then base.(consequence := d.checked.value) else base
  }

  predicate WithinDraft(ds: seq<Decision>, n: nat) { forall i :: 0 <= i < |ds| ==> ds[i].index < n }

  /** What is left of the draft. */
  function Left(ds: seq<Decision>, draft: seq<Finding>): seq<Finding>
    requires WithinDraft(ds, |draft|)
  {
    if ds == [] then []
    else
      var d := Last(ds);
      Left(ds[..|ds| - 1], draft) + if d.action.Drop? then [] else [Remains(d, draft[d.index])]
  }

  function NotDropped(ds: seq<Decision>): nat {
    if ds == [] then 0 else NotDropped(ds[..|ds| - 1]) + if Last(ds).action.Drop? then 0 else 1
  }

  /** How many of the new findings repeat neither a finding that is left nor an earlier new one. */
  function NewCauses(strip: Strip, left: seq<Finding>, extra: seq<Finding>): nat {
    if extra == [] then 0
    else
      var before := extra[..|extra| - 1];
      NewCauses(strip, left, before) + if Known(strip, left + before, Last(extra)) then 0 else 1
  }

  predicate AllFit(strip: Strip, ds: seq<Decision>, draft: seq<Finding>) {
    forall i :: 0 <= i < |ds| ==> ds[i].index < |draft| && Fitting(strip, ds[i], draft[ds[i].index])
  }

  lemma {:induction false} TalliedIff(strip: Strip, ds: seq<Decision>, draft: seq<Finding>)
    requires WithinDraft(ds, |draft|)
    ensures Tallied(strip, ds, draft).Some? <==> AllFit(strip, ds, draft)
    ensures AllFit(strip, ds, draft) ==> Tallied(strip, ds, draft).value.accepted == Left(ds, draft)
    ensures |Left(ds, draft)| == NotDropped(ds)
  {
    if ds != [] {
      TalliedIff(strip, ds[..|ds| - 1], draft);
      DecidesFitting(strip, Last(ds), draft[Last(ds).index]);
    }
  }

  /** Any order of the decisions has the same that fit and as many not dropped. */
  lemma {:induction false} InsertDrops(s: seq<Decision>, d: Decision)
    ensures NotDropped(Insert(s, d)) == NotDropped(s) + if d.action.Drop? then 0 else 1
  {
    if s == [] || Last(s).index <= d.index {
      assert (s + [d])[..|s|] == s;
    } else {
      var rest := Insert(s[..|s| - 1], d);
      InsertDrops(s[..|s| - 1], d);
      assert (rest + [Last(s)])[..|rest|] == rest;
    }
  }

  lemma {:induction false} SortedDrops(ds: seq<Decision>)
    ensures NotDropped(Sorted(ds)) == NotDropped(ds)
  {
    if ds != [] {
      SortedDrops(ds[..|ds| - 1]);
      InsertDrops(Sorted(ds[..|ds| - 1]), Last(ds));
    }
  }

  lemma SortedFits(strip: Strip, ds: seq<Decision>, draft: seq<Finding>)
    ensures AllFit(strip, Sorted(ds), draft) <==> AllFit(strip, ds, draft)
  {
    SortedHas(ds);
    var sorted := Sorted(ds);
    assert forall i :: 0 <= i < |ds| ==> ds[i] in sorted;
    assert forall i :: 0 <= i < |sorted| ==> sorted[i] in ds;
  }

  /** A cause is known after some new findings were added or left out if and only if it is one of those
      left of the draft or of all the new ones so far. */
  lemma KnownThen(strip: Strip, left: seq<Finding>, extra: seq<Finding>, f: Finding)
    ensures Known(strip, WithNew(strip, left, extra), f) <==> Known(strip, left + extra, f)
  {
    var fs, all := WithNew(strip, left, extra), left + extra;
    WithNewExtends(strip, left, extra);
    if Known(strip, fs, f) {
      var i :| 0 <= i < |fs| && SameCause(strip, fs[i], f);
      assert fs[i] in all by {
        if i < |left| {
          assert all[i] == fs[i];
        }
      }
      var k :| 0 <= k < |all| && all[k] == fs[i];
      assert SameCause(strip, all[k], f);
    }
    if Known(strip, all, f) {
      var k :| 0 <= k < |all| && SameCause(strip, all[k], f);
      if k < |left| {
        assert fs[k] == all[k];
      } else {
        assert all[k] in extra && Known(strip, fs, all[k]);
        var i :| 0 <= i < |fs| && SameCause(strip, fs[i], all[k]);
        assert SameCause(strip, fs[i], f);
      }
    }
  }

  lemma {:induction false} WithNewCounts(strip: Strip, left: seq<Finding>, extra: seq<Finding>)
    ensures |WithNew(strip, left, extra)| == |left| + NewCauses(strip, left, extra)
  {
    if extra != [] {
      var before := extra[..|extra| - 1];
      WithNewCounts(strip, left, before);
      KnownThen(strip, left, before, Last(extra));
    }
  }

  /** The decisions are tallied if and only if each fits its finding, in whatever order they came. */
  lemma TalliedIffFitting(strip: Strip, ds: seq<Decision>, draft: seq<Finding>)
    requires Complete(ds, |draft|)
    ensures WithinDraft(Sorted(ds), |draft|)
    ensures Tallied(strip, Sorted(ds), draft).Some? <==> AllFit(strip, ds, draft)
  {
    SortedByPosition(ds, |draft|);
    TalliedIff(strip, Sorted(ds), draft);
    SortedFits(strip, ds, draft);
  }

  /** A verification is accepted if and only if the decisions name every draft finding once, each fits
      its finding, and those not dropped and the new causes are ten at most. */
  lemma VerificationAccepts(strip: Strip, ds: seq<Decision>, extra: seq<Finding>, draft: seq<Finding>)
    ensures Complete(ds, |draft|) ==> WithinDraft(Sorted(ds), |draft|)
    ensures Verify(strip, ds, extra, draft).Some? <==>
              && Complete(ds, |draft|) && AllFit(strip, ds, draft)
              && NotDropped(ds) + NewCauses(strip, Left(Sorted(ds), draft), extra) <= MAX_FINDINGS
  {
    if Complete(ds, |draft|) {
      TalliedIffFitting(strip, ds, draft);
      TalliedIff(strip, Sorted(ds), draft);
      SortedDrops(ds);
      SortedFits(strip, ds, draft);
      WithNewCounts(strip, Left(Sorted(ds), draft), extra);
    }
  }
}
