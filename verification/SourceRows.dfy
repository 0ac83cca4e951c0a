/** The rows of a payload: numbered lines of the new side of a file (app/domain/review/policy.py, line
    105), as patches yield them and packing extends them. */
module SourceRows {
  datatype Row = Row(line: nat, code: string, changed: bool)

  /** No two rows claim one line with different contents. */
  ghost predicate Consistent(lines: seq<Row>) { forall r, s :: r in lines && s in lines && r.line == s.line ==> r == s }

  /** No line is claimed both as changed and as unchanged. */
  ghost predicate FlagsAgree(lines: seq<Row>) {
    forall r, s :: r in lines && s in lines && r.line == s.line ==> r.changed == s.changed
  }

  /** Each row is the line it claims of the pinned source: what context_selection.py, lines 79-85, asks of a
      file before it is extended. */
  predicate FromSource(lines: seq<Row>, source: seq<string>) {
    forall r <- lines :: 1 <= r.line <= |source| && r.code == source[r.line - 1]
  }

  /** Rows of the pinned source can only disagree on their flags. */
  lemma PinnedRowsDifferByFlag(lines: seq<Row>, source: seq<string>)
    requires FromSource(lines, source)
    ensures Consistent(lines) <==> FlagsAgree(lines)
  {
    if FlagsAgree(lines) {
      forall r, s | r in lines && s in lines && r.line == s.line
        ensures r == s
      {
        assert r.changed == s.changed && r.code == source[r.line - 1] == s.code;
      }
    }
  }

  lemma AscendingConsistent(lines: seq<Row>)
    requires forall i, j :: 0 <= i < j < |lines| ==> lines[i].line < lines[j].line
    ensures Consistent(lines)
  {}
}
