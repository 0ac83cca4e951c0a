/** Pull request synchronisation runs: the third client of the job protocol
    (app/domain/pull_request/service.py). */
module SyncRuns {
  import opened Options
  import opened Runs
  import J = Jobs
  import C = Connections

  /** One pull request, the most recent ones, or a later page of them. */
  datatype Mode = Single(number: nat) | Recent | Page(page: nat)

  function PageOf(m: Mode): nat { if m.Page? then m.page else 1 }

  const FULL_PAGE := 30

  /** Fetched pull requests, none if nothing was modified since the ETag sent; or an error code. */
  datatype Verdict = Done(pulls: seq<nat>, etag: Option<string>, unmodified: bool)
                   | GaveUp(code: J.Code, retry: bool, delay: int)

  /** `next` is the page after this one, `succeededAt` the time of success, `pulls` the pull requests
      this run has written. */
  datatype Row = Row(repo: nat, connection: nat, system: bool, mode: Mode, status: Status, startedAt: Option<int>,
                     finishedAt: Option<int>, error: Option<J.Code>, fetched: nat, etag: Option<string>,
                     next: Option<nat>, succeededAt: Option<int>, pulls: seq<nat>)

  const NO_PERMISSION := J.OtherCode(0)
  const REPOSITORY_INACTIVE := J.OtherCode(1)

  /** A new run takes ETag and cursor over from `cached`, the last one completed for the same request. */
  function Accepted(repo: nat, connection: nat, system: bool, mode: Mode, cached: Option<Row>): Row {
    Row(repo, connection, system, mode, Pending, None, None, None, 0,
        if cached.Some? then cached.value.etag else None, if cached.Some? then cached.value.next else None, None, [])
  }

  predicate Active(run: Row) { run.status.Pending? || run.status.Running? }

  // ---- Specification of the transactions ----

  /** The code `access` and the generation check after it leave behind. */
  function Denied(run: Row, conn: C.Conn, permitted: bool): Option<J.Code> {
    if run.system then (if permitted && C.Open(conn, run.connection) then None else Some(J.ConnectionChanged))
    else if !permitted then Some(NO_PERMISSION)
    else if !conn.status.Active? then Some(REPOSITORY_INACTIVE)
    else if conn.generation != run.connection then Some(J.ConnectionChanged)
    else None
  }

  function Begun(run: Row, job: J.Row, conn: C.Conn, c: J.Claim, now: int, permitted: bool): Row {
    if Denied(run, conn, permitted).Some? || !J.Fenced(job, c, now, false) then run
    else run.(status := Running, startedAt := Some(now))
  }

  function Judged(v: Verdict, denied: Option<J.Code>): Verdict {
    if denied.Some? then GaveUp(denied.value, false, 5) else v
  }

  /** What a success writes on its run. */
  function Saved(run: Row, v: Verdict, now: int): Row
    requires v.Done?
  {
    run.(pulls := run.pulls + v.pulls, fetched := |v.pulls|, etag := v.etag, succeededAt := Some(now),
         next := if v.unmodified then run.next
                 else if |v.pulls| == FULL_PAGE && !run.mode.Single? then Some(PageOf(run.mode) + 1)
                 else None)
  }

  function Ended(run: Row, job: J.Row, v: Verdict, now: int): (Row, J.Row)
    requires job.history != []
  {
    var code := if v.GaveUp? then Some(v.code) else None;
    var done := J.Finished(job, now, code, v.GaveUp? && v.retry, if v.GaveUp? then v.delay else 5);
    var again := done.state.Ready?;
    var saved := if v.Done? then Saved(run, v, now) else run;
    (saved.(status := if again then Pending else if v.Done? then Completed else Failed,
       finishedAt := if again then None else Some(now), error := code),
     done)
  }

  /** `complete` on run, job and connection: losing GitHub access suspends the connection, a success
      dates it. */
  function Concluded(run: Row, job: J.Row, conn: C.Conn, c: J.Claim, v: Verdict, now: int, expired: bool,
                     permitted: bool): (Row, J.Row, C.Conn)
    requires J.Fenced(job, c, now, expired) ==> job.history != []
  {
    if !J.Fenced(job, c, now, expired) then (run, job, conn)
    else
      var w := Judged(v, Denied(run, conn, permitted));
      var (run', job') := Ended(run, job, w, now);
      (run', job', if w.Done? then C.Synced(conn, now)
                   else if w.code.GitHubAccessUnavailable? then C.Halted(conn) else conn)
  }

  class SyncRun {
    const repo: nat
    const connection: nat
    const system: bool
    const mode: Mode
    var status: Status
    var startedAt: Option<int>
    var finishedAt: Option<int>
    var error: Option<J.Code>
    var fetched: nat
    var etag: Option<string>
    var next: Option<nat>
    var succeededAt: Option<int>
    var pulls: seq<nat>

    ghost function View(): Row
      reads this
    {
      Row(repo, connection, system, mode, status, startedAt, finishedAt, error, fetched, etag, next, succeededAt, pulls)
    }

    constructor (repo: nat, connection: nat, system: bool, mode: Mode, cached: Option<Row>)
      ensures View() == Accepted(repo, connection, system, mode, cached)
    {
      this.repo, this.connection, this.system, this.mode := repo, connection, system, mode;
      status, startedAt, finishedAt, error, fetched, succeededAt, pulls := Pending, None, None, None, 0, None, [];
      etag := if cached.Some? then cached.value.etag else None;
      next := if cached.Some? then cached.value.next else None;
    }

    method Access(conn: C.RepositoryConnection, permitted: bool) returns (code: Option<J.Code>)
      ensures code == Denied(View(), conn.View(), permitted)
    {
      var open := conn.status == C.Active && conn.generation == connection;
      if system {
        return if permitted && open then None else Some(J.ConnectionChanged);
      }
      if !permitted {
        return Some(NO_PERMISSION);
      }
      if conn.status != C.Active {
        return Some(REPOSITORY_INACTIVE);
      }
      return if open then None else Some(J.ConnectionChanged);
    }

    method Begin(job: J.Job, conn: C.RepositoryConnection, c: J.Claim, now: int, permitted: bool)
      modifies this
      ensures View() == Begun(old(View()), job.View(), conn.View(), c, now, permitted)
    {
      var denied := Access(conn, permitted);
      var held := job.Fence(c, now, false);
      if denied.None? && held {
        status, startedAt := Running, Some(now);
      }
    }

    method Complete(job: J.Job, conn: C.RepositoryConnection, c: J.Claim, verdict: Verdict, now: int, expired: bool,
                    permitted: bool)
      requires J.Fenced(job.View(), c, now, expired) ==> job.history != []
      modifies this, job, conn
      ensures (View(), job.View(), conn.View()) ==
              Concluded(old(View()), old(job.View()), old(conn.View()), c, verdict, now, expired, permitted)
    {
      var v := verdict;
      var denied := Access(conn, permitted);
      if denied.Some? {
        v := GaveUp(denied.value, false, 5);
      }
      var held := job.Fence(c, now, expired);
      if !held {
        return;
      }
      if v.Done? {
        conn.SyncSuccess(now);
      } else if v.code == J.GitHubAccessUnavailable {
        conn.Suspend();
      }
      End(job, v, now);
    }

    method Save(v: Verdict, now: int)
      requires v.Done?
      modifies this
      ensures View() == Saved(old(View()), v, now)
    {
      pulls, fetched, etag, succeededAt := pulls + v.pulls, |v.pulls|, v.etag, Some(now);
      if !v.unmodified {
        var page := if mode.Page? then mode.page else 1;
        next := if |v.pulls| == FULL_PAGE && !mode.Single? then Some(page + 1) else None;
      }
    }

    /** The writes of `complete` on run and job once the fence has let it through. */
    method End(job: J.Job, v: Verdict, now: int)
      requires job.history != []
      modifies this, job
      ensures (View(), job.View()) == Ended(old(View()), old(job.View()), v, now)
    {
      var state;
      match v {
        case Done(_, _, _) =>
          Save(v, now);
          error := None;
          state := job.Finish(now, None, false, 5);
          status := Completed;
        case GaveUp(code, retry, delay) =>
          error := Some(code);
          state := job.Finish(now, Some(code), retry, delay);
          status := if state == J.Ready then Pending else Failed;
      }
      finishedAt := if state == J.Ready then None else Some(now);
    }
  }

  // ---- Run and job move together ----

  ghost predicate Inv(run: Row, job: J.Row) {
    && J.Valid(job) && !job.state.Canceled? && !run.status.Canceled?
    && (job.state.Succeeded? <==> run.status.Completed?)
    && (job.state.Dead? <==> run.status.Failed?)
    && (job.state.Ready? ==> run.status.Pending?)
    && (run.status.Running? ==> job.state.Leased?)
    && (Terminal(run.status) <==> run.finishedAt.Some?)
    && |run.pulls| == run.fetched && (!run.status.Completed? ==> run.pulls == [])
    && (run.status.Completed? <==> run.succeededAt.Some?) && NextFollows(run)
  }

  /** A cursor, a cached one too, names the page after the one that was asked for. */
  predicate NextFollows(run: Row) {
    run.next.Some? ==> !run.mode.Single? && run.next.value == PageOf(run.mode) + 1
  }

  lemma AcceptKeeps(repo: nat, connection: nat, system: bool, mode: Mode, cached: Option<Row>, now: int)
    requires cached.Some? ==> cached.value.mode == mode && NextFollows(cached.value)
    ensures Inv(Accepted(repo, connection, system, mode, cached), J.Enqueued(now))
  {
    J.EnqueueValid(now);
  }

  lemma BeginKeeps(run: Row, job: J.Row, conn: C.Conn, c: J.Claim, now: int, permitted: bool)
    requires Inv(run, job)
    ensures Inv(Begun(run, job, conn, c, now, permitted), job)
  {}

  lemma ConcludeKeeps(run: Row, job: J.Row, conn: C.Conn, c: J.Claim, v: Verdict, now: int, expired: bool,
                      permitted: bool)
    requires Inv(run, job)
    ensures var (run', job', conn') := Concluded(run, job, conn, c, v, now, expired, permitted);
            && Inv(run', job') && C.Moves(conn, conn') && conn'.generation == conn.generation
            && conn'.syncedAt
               == (if run'.status.Completed? && !run.status.Completed? then run'.succeededAt else conn.syncedAt)
  {}
}
