/** Static analysis runs: the transactions of the analysis worker and the user's cancel
    (app/domain/analysis/worker.py, app/domain/analysis/service.py). Each works on a run and its
    job under the workspace lock, so each is one atomic step here. */
module AnalysisRuns {
  import opened Options
  import opened Runs
  import J = Jobs
  import C = Connections

  datatype FileStatus = Included | Excluded | NotRead

  datatype FileResult = FileResult(path: nat, status: FileStatus, notEvaluated: nat)

  /** A finished analysis. Findings and coverage words are opaque here. */
  datatype Result = Result(files: seq<FileResult>, findings: seq<nat>, coverage: nat, reason: Option<nat>)

  /** How `execute` ended: with a result, or with a code it may want retried. */
  datatype Verdict = Done(result: Result) | GaveUp(code: J.Code, retry: bool, delay: int)

  datatype Counts = Counts(total: nat, included: nat, excluded: nat, failed: int, notEvaluated: nat, findings: nat)

  /** A run row with the result rows stored under its id. */
  datatype Row = Row(repo: nat, connection: nat, status: Status, startedAt: Option<int>,
                     finishedAt: Option<int>, error: Option<J.Code>, coverage: Option<nat>,
                     reason: Option<nat>, counts: Counts, files: seq<FileResult>, findings: seq<nat>)

  const NOTHING := Counts(0, 0, 0, 0, 0, 0)

  function Accepted(repo: nat, connection: nat): Row {
    Row(repo, connection, Pending, None, None, None, None, None, NOTHING, [], [])
  }

  function CountStatus(files: seq<FileResult>, s: FileStatus): nat {
    if files == [] then 0 else (if files[0].status == s then 1 else 0) + CountStatus(files[1..], s)
  }

  function CountNotEvaluated(files: seq<FileResult>): nat {
    if files == [] then 0 else files[0].notEvaluated + CountNotEvaluated(files[1..])
  }

  function Tally(r: Result): Counts {
    var included, excluded := CountStatus(r.files, Included), CountStatus(r.files, Excluded);
    Counts(|r.files|, included, excluded, |r.files| - included - excluded,
           CountNotEvaluated(r.files), |r.findings|)
  }

  // ---- Specification of the transactions ----

  /** First transaction of `execute`. `current`: the analyzer and configuration are still those of the run. */
  function Begun(run: Row, job: J.Row, c: J.Claim, now: int, authorized: bool, current: bool): Row {
    if Terminal(run.status) || !J.Fenced(job, c, now, false) || !authorized || !current then run
    else run.(status := Running, startedAt := Some(now))
  }

  predicate Stops(code: J.Code) { code.AccessRevoked? || code.AnalysisCanceled? || code.ConnectionChanged? }

  function Stored(run: Row, r: Result): Row {
    run.(files := run.files + r.files, findings := run.findings + r.findings,
       coverage := Some(r.coverage), reason := r.reason, counts := Tally(r))
  }

  /** What a verdict becomes once authorization has been asked for again. */
  function Judged(v: Verdict, authorized: bool): Verdict {
    if authorized then v else GaveUp(J.AccessRevoked, false, 5)
  }

  function Ended(run: Row, job: J.Row, v: Verdict, now: int): (Row, J.Row)
    requires job.history != []
  {
    var code := if v.GaveUp? then Some(v.code) else None;
    var done := J.Finished(job, now, code, v.GaveUp? && v.retry, if v.GaveUp? then v.delay else 5);
    var again := done.state.Ready?;
    var status := if again then Pending else if v.Done? then Completed
                  else if Stops(v.code) then Canceled else Failed;
    var saved := if v.Done? then Stored(run, v.result) else run;
    (saved.(status := status, error := code, finishedAt := if again then None else Some(now)),
     if status.Canceled? then done.(state := J.Canceled) else done)
  }

  /** `complete`: live, or as recovery of an expired lease. */
  function Concluded(run: Row, job: J.Row, c: J.Claim, v: Verdict, now: int, expired: bool,
                     authorized: bool): (Row, J.Row)
    requires J.Fenced(job, c, now, expired) ==> job.history != []
  {
    if Terminal(run.status) || !J.Fenced(job, c, now, expired) then (run, job)
    else Ended(run, job, Judged(v, authorized), now)
  }

  function Cancelled(run: Row, job: J.Row, now: int, permitted: bool): (Row, J.Row) {
    if !permitted || Terminal(run.status) then (run, job)
    else (run.(status := Canceled, finishedAt := Some(now), error := Some(J.UserCanceled)),
          J.Cancelled(job, now, job.state.Leased? && job.history != []))
  }

  // ---- The run object and the transactions on it ----

  class AnalysisRun {
    const repo: nat
    const connection: nat
    var status: Status
    var startedAt: Option<int>
    var finishedAt: Option<int>
    var error: Option<J.Code>
    var coverage: Option<nat>
    var reason: Option<nat>
    var counts: Counts
    var files: seq<FileResult>
    var findings: seq<nat>

    ghost function View(): Row
      reads this
    {
      Row(repo, connection, status, startedAt, finishedAt, error, coverage, reason, counts, files, findings)
    }

    constructor (repo: nat, connection: nat)
      ensures View() == Accepted(repo, connection)
    {
      this.repo, this.connection := repo, connection;
      status, startedAt, finishedAt, error, coverage, reason := Pending, None, None, None, None, None;
      counts, files, findings := NOTHING, [], [];
    }

    method Begin(job: J.Job, conn: C.RepositoryConnection, c: J.Claim, now: int, permitted: bool, current: bool)
      modifies this
      ensures View() == Begun(old(View()), job.View(), c, now, permitted && C.Open(conn.View(), connection), current)
    {
      if Terminal(status) {
        return;
      }
      var held := job.Fence(c, now, false);
      if !held || !permitted || conn.status != C.Active || conn.generation != connection || !current {
        return;
      }
      status, startedAt := Running, Some(now);
    }

    method Complete(job: J.Job, conn: C.RepositoryConnection, c: J.Claim, verdict: Verdict, now: int, expired: bool,
                    permitted: bool)
      requires J.Fenced(job.View(), c, now, expired) ==> job.history != []
      modifies this, job
      ensures (View(), job.View()) ==
              Concluded(old(View()), old(job.View()), c, verdict, now, expired,
                        permitted && C.Open(conn.View(), connection))
    {
      if Terminal(status) {
        return;
      }
      var v := verdict;
      if !permitted || conn.status != C.Active || conn.generation != connection {
        v := GaveUp(J.AccessRevoked, false, 5);
      }
      var held := job.Fence(c, now, expired);
      if !held {
        return;
      }
      End(job, v, now);
    }

    /** The writes of `complete` once the fence has let it through. */
    method End(job: J.Job, v: Verdict, now: int)
      requires job.history != []
      modifies this, job
      ensures (View(), job.View()) == Ended(old(View()), old(job.View()), v, now)
    {
      var state;
      match v {
        case Done(r) =>
          Save(r);
          state := job.Finish(now, None, false, 5);
          status, error := Completed, None;
        case GaveUp(code, retry, delay) =>
          state := job.Finish(now, Some(code), retry, delay);
          status := if state == J.Ready then Pending else if Stops(code) then Canceled else Failed;
          error := Some(code);
      }
      if status == Canceled {
        job.state := J.Canceled;
      }
      finishedAt := if state == J.Ready then None else Some(now);
    }

    method Save(r: Result)
      modifies this
      ensures View() == Stored(old(View()), r)
    {
      files, findings := files + r.files, findings + r.findings;
      coverage, reason, counts := Some(r.coverage), r.reason, Tally(r);
    }

    method Cancel(job: J.Job, now: int, permitted: bool)
      modifies this, job
      ensures (View(), job.View()) == Cancelled(old(View()), old(job.View()), now, permitted)
    {
      if !permitted || Terminal(status) {
        return;
      }
      job.Cancel(now, job.state == J.Leased && job.history != []);
      status, finishedAt, error := Canceled, Some(now), Some(J.UserCanceled);
    }
  }

  // ---- Run and job move together ----

  ghost predicate Lockstep(run: Row, job: J.Row) {
    && (job.state.Succeeded? <==> run.status.Completed?)
    && (job.state.Dead? <==> run.status.Failed?)
    && (job.state.Canceled? <==> run.status.Canceled?)
    && (job.state.Ready? ==> run.status.Pending?)
    && (run.status.Running? ==> job.state.Leased?)
  }

  /** Result rows are there exactly for a completed run, and its counts are those of the rows. */
  ghost predicate StoredOnce(run: Row) {
    if run.status.Completed? then
      && run.coverage.Some?
      && run.counts == Tally(Result(run.files, run.findings, run.coverage.value, run.reason))
    else run.files == [] && run.findings == [] && run.counts == NOTHING && run.coverage.None?
  }

  ghost predicate Inv(run: Row, job: J.Row) {
    && J.Valid(job) && Lockstep(run, job) && StoredOnce(run)
    && (Terminal(run.status) <==> run.finishedAt.Some?)
  }

  lemma AcceptKeeps(repo: nat, connection: nat, now: int)
    ensures Inv(Accepted(repo, connection), J.Enqueued(now))
  {}

  lemma BeginKeeps(run: Row, job: J.Row, c: J.Claim, now: int, authorized: bool, current: bool)
    requires Inv(run, job)
    ensures Inv(Begun(run, job, c, now, authorized, current), job)
  {}

  lemma CancelKeeps(run: Row, job: J.Row, now: int, permitted: bool)
    requires Inv(run, job)
    ensures var (run', job') := Cancelled(run, job, now, permitted); Inv(run', job')
  {}

  lemma ConcludeKeeps(run: Row, job: J.Row, c: J.Claim, v: Verdict, now: int, expired: bool, authorized: bool)
    requires Inv(run, job)
    ensures var (run', job') := Concluded(run, job, c, v, now, expired, authorized); Inv(run', job')
  {
    if !Terminal(run.status) && J.Fenced(job, c, now, expired) {
      var w := Judged(v, authorized);
      var code := if w.GaveUp? then Some(w.code) else None;
      J.FinishKeepsValid(job, now, code, w.GaveUp? && w.retry, if w.GaveUp? then w.delay else 5);
      if w.Done? {
        assert run.files + w.result.files == w.result.files && run.findings + w.result.findings == w.result.findings;
      }
    }
  }

  /** What one `complete` can have stored: nothing, or the whole result of its caller, who held the
      live lease of a run still open on its connection. */
  lemma StoresOnlyUnderLease(run: Row, job: J.Row, c: J.Claim, v: Verdict, now: int, expired: bool, authorized: bool)
    requires Inv(run, job)
    ensures var (run', _) := Concluded(run, job, c, v, now, expired, authorized);
            if run'.status.Completed? && !run.status.Completed? then
              && v.Done? && authorized && J.Fenced(job, c, now, expired)
              && run'.files == v.result.files && run'.findings == v.result.findings
            else run'.files == run.files && run'.findings == run.findings
  {
    if v.Done? {
      assert [] + v.result.files == v.result.files && [] + v.result.findings == v.result.findings;
    }
  }

  lemma {:induction false} CountsPartition(files: seq<FileResult>)
    ensures CountStatus(files, Included) + CountStatus(files, Excluded) + CountStatus(files, NotRead) == |files|
  {
    if files != [] {
      CountsPartition(files[1..]);
    }
  }

  /** Conservation: in a stored run the failed files are the files neither included nor excluded. */
  lemma CompletedCountsAddUp(run: Row, job: J.Row)
    requires Inv(run, job)
    ensures run.counts.total == |run.files| == run.counts.included + run.counts.excluded + run.counts.failed
    ensures run.status.Completed? ==> run.counts.failed == CountStatus(run.files, NotRead)
    ensures run.counts.findings == |run.findings|
  {
    CountsPartition(run.files);
  }
}
