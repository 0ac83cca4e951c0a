/** AI review runs (app/domain/review/worker.py, app/domain/review/service.py). A review makes at
    most two provider calls; each is reserved in a transaction of its own before it is sent, and a
    review job is never requeued. */
module ReviewRuns {
  import opened Options
  import opened Runs
  import J = Jobs
  import C = Connections

  datatype Row = Row(repo: nat, connection: nat, createdAt: int, status: Status,
                     startedAt: Option<int>, finishedAt: Option<int>, error: Option<J.Code>,
                     callAttempts: nat, input: nat, output: nat, uncertain: bool, result: Option<nat>)

  /** How `execute` ended: a checked result, or a code with what was computed independently. */
  datatype Verdict = Done(result: nat) | GaveUp(code: J.Code, partial: Option<nat>)

  /** `reserve` returned true, returned false, or left by an exception and wrote nothing. */
  datatype Reply = Granted | Refused | Raised

  function Accepted(repo: nat, connection: nat, now: int): Row {
    Row(repo, connection, now, Pending, None, None, None, 0, 0, 0, false, None)
  }

  function Max(a: nat, b: nat): nat { if a < b then b else a }

  function Metered(run: Row, input: nat, output: nat): Row {
    run.(input := Max(run.input, input), output := Max(run.output, output))
  }

  // ---- Specification of the transactions ----

  /** First transaction of `execute`; `current`: model, policy and prompt are still those of the run. */
  predicate Begins(run: Row, job: J.Row, c: J.Claim, now: int, authorized: bool, current: bool) {
    !Terminal(run.status) && J.Fenced(job, c, now, false) && authorized && run.callAttempts == 0 && current
  }

  function Begun(run: Row, now: int): Row { run.(status := Running, startedAt := Some(now)) }

  function ReserveReply(run: Row, job: J.Row, c: J.Claim, expected: nat, now: int, authorized: bool): Reply {
    if !run.status.Running? || run.callAttempts != expected || !J.Fenced(job, c, now, false) then Refused
    else if authorized then Granted else Raised
  }

  function Reserved(run: Row, reply: Reply, expected: nat, input: nat, output: nat): Row {
    match reply
    case Raised => run
    case Refused => Metered(run, input, output)
    case Granted => Metered(run, input, output).(callAttempts := expected + 1, uncertain := true)
  }

  predicate StillAuthorized(run: Row, job: J.Row, c: J.Claim, now: int, authorized: bool) {
    run.status.Running? && J.Fenced(job, c, now, false) && authorized
  }

  function Ended(run: Row, job: J.Row, v: Verdict, now: int): (Row, J.Row)
    requires job.history != []
  {
    var code := if v.GaveUp? then Some(v.code) else None;
    (run.(status := if v.Done? then Completed else Failed, error := code, finishedAt := Some(now),
        result := if v.Done? then Some(v.result) else v.partial,
        uncertain := v.GaveUp? && run.callAttempts > 0),
     J.Finished(job, now, code, false, 5))
  }

  function Concluded(run: Row, job: J.Row, c: J.Claim, v: Verdict, input: nat, output: nat, now: int, expired: bool,
                     authorized: bool): (Row, J.Row)
    requires J.Fenced(job, c, now, expired) ==> job.history != []
  {
    var metered := Metered(run, input, output);
    if Terminal(run.status) || !J.Fenced(job, c, now, expired) then (metered, job)
    else Ended(metered, job, if authorized then v else GaveUp(J.AccessRevoked, None), now)
  }

  function Cancelled(run: Row, job: J.Row, now: int, authorized: bool): (Row, J.Row) {
    if !authorized || Terminal(run.status) then (run, job)
    else (run.(status := Canceled, finishedAt := Some(now), error := Some(J.UserCanceled),
               uncertain := run.callAttempts > 0),
          J.Cancelled(job, now, job.history != []))
  }

  // ---- The run object and the transactions on it ----

  class ReviewRun {
    const repo: nat
    const connection: nat
    const createdAt: int
    var status: Status
    var startedAt: Option<int>
    var finishedAt: Option<int>
    var error: Option<J.Code>
    var callAttempts: nat
    var input: nat
    var output: nat
    var uncertain: bool
    var result: Option<nat>

    ghost function View(): Row
      reads this
    {
      Row(repo, connection, createdAt, status, startedAt, finishedAt, error, callAttempts, input, output, uncertain,
          result)
    }

    constructor (repo: nat, connection: nat, now: int)
      ensures View() == Accepted(repo, connection, now)
    {
      this.repo, this.connection, createdAt := repo, connection, now;
      status, startedAt, finishedAt, error, result := Pending, None, None, None, None;
      callAttempts, input, output, uncertain := 0, 0, 0, false;
    }

    ghost predicate Authorized(conn: C.RepositoryConnection, permitted: bool)
      reads conn
    {
      permitted && C.Open(conn.View(), connection)
    }

    method Begin(job: J.Job, conn: C.RepositoryConnection, c: J.Claim, now: int, permitted: bool, current: bool)
      returns (started: bool)
      modifies this
      ensures started == Begins(old(View()), job.View(), c, now, Authorized(conn, permitted), current)
      ensures View() == if started then Begun(old(View()), now) else old(View())
    {
      if Terminal(status) {
        return false;
      }
      var held := job.Fence(c, now, false);
      if !held || !permitted || conn.status != C.Active || conn.generation != connection || callAttempts > 0
        || !current {
        return false;
      }
      status, startedAt := Running, Some(now);
      started := true;
    }

    method Reserve(job: J.Job, conn: C.RepositoryConnection, c: J.Claim, expected: nat, inTokens: nat, outTokens: nat,
                   now: int, permitted: bool)
      returns (reply: Reply)
      modifies this
      ensures reply == ReserveReply(old(View()), job.View(), c, expected, now, Authorized(conn, permitted))
      ensures View() == Reserved(old(View()), reply, expected, inTokens, outTokens)
    {
      var held := job.Fence(c, now, false);
      var admitted := status == Running && callAttempts == expected && held;
      if admitted && (!permitted || conn.status != C.Active || conn.generation != connection) {
        return Raised;  // the exception rolls the token counts back
      }
      input, output := Max(input, inTokens), Max(output, outTokens);
      if !admitted {
        return Refused;
      }
      callAttempts, uncertain := expected + 1, true;
      reply := Granted;
    }

    method Recheck(job: J.Job, conn: C.RepositoryConnection, c: J.Claim, now: int, permitted: bool) returns (ok: bool)
      ensures ok == StillAuthorized(View(), job.View(), c, now, Authorized(conn, permitted))
    {
      var held := job.Fence(c, now, false);
      ok := status == Running && held && permitted && conn.status == C.Active && conn.generation == connection;
    }

    method Complete(job: J.Job, conn: C.RepositoryConnection, c: J.Claim, verdict: Verdict, inTokens: nat,
                    outTokens: nat, now: int, expired: bool, permitted: bool)
      requires J.Fenced(job.View(), c, now, expired) ==> job.history != []
      modifies this, job
      ensures (View(), job.View()) ==
              Concluded(old(View()), old(job.View()), c, verdict, inTokens, outTokens, now, expired,
                        Authorized(conn, permitted))
    {
      input, output := Max(input, inTokens), Max(output, outTokens);
      if Terminal(status) {
        return;
      }
      var v := verdict;
      if !permitted || conn.status != C.Active || conn.generation != connection {
        v := GaveUp(J.AccessRevoked, None);
      }
      var held := job.Fence(c, now, expired);
      if !held {
        return;
      }
      End(job, v, now);
    }

    /** The writes of `complete` once the fence has let it through. */
    method End(job: J.Job, v: Verdict, now: int)
      requires job.history != []
      modifies this, job
      ensures (View(), job.View()) == Ended(old(View()), old(job.View()), v, now)
    {
      var code := if v.GaveUp? then Some(v.code) else None;
      var state := job.Finish(now, code, false, 5);
      status, error, finishedAt := if code.Some? then Failed else Completed, code, Some(now);
      result := if v.Done? then Some(v.result) else v.partial;
      uncertain := code.Some? && callAttempts > 0;
    }

    method Cancel(job: J.Job, conn: C.RepositoryConnection, now: int, permitted: bool)
      modifies this, job
      ensures (View(), job.View()) == Cancelled(old(View()), old(job.View()), now, Authorized(conn, permitted))
    {
      if !permitted || conn.status != C.Active || conn.generation != connection || Terminal(status) {
        return;
      }
      status, finishedAt, error, uncertain := Canceled, Some(now), Some(J.UserCanceled), callAttempts > 0;
      job.Cancel(now, job.history != []);
    }
  }

  // ---- The worker between its transactions ----

  /** Where the one execution of a claim stands: which calls it has reserved and sent. */
  datatype Stage = Claimed | Started | Reserved1 | Sent1 | Reserved2 | Sent2 | Left

  /** A provider call, with the reservation committed for it. */
  datatype Reservation = Reservation(at: int, generation: nat, leaseUntil: int, connection: C.Conn)

  /** A worker's execution and what it has done so far. */
  datatype Proc = Proc(claim: J.Claim, stage: Stage)

  datatype Task = Task(run: Row, job: J.Row, procs: seq<Proc>, reservations: seq<Reservation>, calls: seq<int>)

  // ---- Run and job move together, and calls never exceed reservations ----

  ghost predicate Lockstep(run: Row, job: J.Row) {
    && (job.state.Succeeded? <==> run.status.Completed?)
    && (job.state.Dead? <==> run.status.Failed?)
    && (job.state.Canceled? <==> run.status.Canceled?)
    && (job.state.Ready? ==> run.status.Pending?)
    && (run.status.Running? ==> job.state.Leased?)
  }

  /** The reservation was committed by the holder of a live lease, on an open connection. */
  ghost predicate Sound(r: Reservation, run: Row) {
    r.at < r.leaseUntil && C.Open(r.connection, run.connection)
  }

  ghost predicate StageMatches(s: Stage, t: Task) {
    match s
    case Claimed => t.run.callAttempts == 0 && |t.calls| == 0
    case Started => t.run.callAttempts == 0 && |t.calls| == 0
    case Reserved1 => t.run.callAttempts == 1 && |t.calls| == 0
    case Sent1 => t.run.callAttempts == 1 && |t.calls| == 1
    case Reserved2 => t.run.callAttempts == 2 && |t.calls| == 1
    case Sent2 => t.run.callAttempts == 2 && |t.calls| == 2
    case Left => true
  }

  ghost predicate Inv(t: Task, now: int) {
    && J.Valid(t.job) && Lockstep(t.run, t.job)
    && (Terminal(t.run.status) <==> t.run.finishedAt.Some?)
    && (t.run.status.Completed? ==> t.run.result.Some? && |t.calls| == 2)
    && (!Terminal(t.run.status) ==> t.run.result.None?)
    && t.run.uncertain == (!t.run.status.Completed? && t.run.callAttempts > 0)
    // one claim, one execution
    && t.job.attempts <= 1 && |t.procs| == t.job.attempts
    && (t.job.state.Ready? ==> t.job.attempts == 0)
    && (t.procs == [] ==> t.run.callAttempts == 0)
    && (forall p <- t.procs :: StageMatches(p.stage, t) && p.claim.generation == 1)
    // calls
    && |t.calls| <= |t.reservations| == t.run.callAttempts <= 2
    && (forall k :: 0 <= k < |t.reservations| ==>
          && Sound(t.reservations[k], t.run) && t.reservations[k].generation == 1
          && t.run.createdAt <= t.reservations[k].at <= now)
    && (forall k :: 0 <= k < |t.calls| ==> t.reservations[k].at <= t.calls[k] <= now)
    && t.run.createdAt <= now
  }

  // ---- The steps of one review ----

  function Created(repo: nat, connection: nat, now: int): Task {
    Task(Accepted(repo, connection, now), J.Enqueued(now), [], [], [])
  }

  function At(t: Task, p: nat, s: Stage): Task
    requires p < |t.procs|
  {
    t.(procs := t.procs[p := t.procs[p].(stage := s)])
  }

  function Claim(t: Task, worker: J.Worker, now: int): Task {
    if !J.Claimable(t.job, now) then t
    else var job := J.Claimed(t.job, worker, now);
         t.(job := job, procs := t.procs + [Proc(J.Claim(job.generation, worker), Claimed)])
  }

  function Heartbeat(t: Task, c: J.Claim, now: int): Task {
    if J.Fenced(t.job, c, now, false) then t.(job := J.Renewed(t.job, now)) else t
  }

  function Begin(t: Task, p: nat, now: int, authorized: bool, current: bool): Task {
    if p >= |t.procs| || t.procs[p].stage != Claimed then t
    else if Begins(t.run, t.job, t.procs[p].claim, now, authorized, current)
      then At(t, p, Started).(run := Begun(t.run, now))
    else At(t, p, Left)
  }

  /** The reservation a stage asks for, the first or the second. */
  function Wanted(s: Stage): Option<nat> {
    match s
    case Started => Some(0)
    case Sent1 => Some(1)
    case _ => None
  }

  function Reserve(t: Task, p: nat, input: nat, output: nat, now: int, conn: C.Conn, permitted: bool): Task {
    if p >= |t.procs| || Wanted(t.procs[p].stage).None? then t
    else
      var c, k := t.procs[p].claim, Wanted(t.procs[p].stage).value;
      var reply := ReserveReply(t.run, t.job, c, k, now, permitted && C.Open(conn, t.run.connection));
      var run := Reserved(t.run, reply, k, input, output);
      if reply.Granted? then
        At(t, p, if k == 0 then Reserved1 else Reserved2).(run := run,
          reservations := t.reservations + [Reservation(now, c.generation, t.job.leaseUntil.value, conn)])
      else At(t, p, Left).(run := run)
  }

  /** The provider call itself: no transaction, and no check at all. */
  function Send(t: Task, p: nat, now: int): Task {
    if p >= |t.procs| then t
    else match t.procs[p].stage
      case Reserved1 => At(t, p, Sent1).(calls := t.calls + [now])
      case Reserved2 => At(t, p, Sent2).(calls := t.calls + [now])
      case _ => t
  }

  /** The end of `execute`: a result only after the second call, an error from anywhere. */
  function Complete(t: Task, p: nat, v: Verdict, input: nat, output: nat, now: int, authorized: bool): Task
    requires J.Valid(t.job)
  {
    if p >= |t.procs| || (v.Done? && t.procs[p].stage != Sent2) then t
    else
      var (run, job) := Concluded(t.run, t.job, t.procs[p].claim, v, input, output, now, false, authorized);
      At(t, p, Left).(run := run, job := job)
  }

  /** Recovery of an expired lease, by any worker. */
  function Recover(t: Task, c: J.Claim, now: int, authorized: bool): Task
    requires J.Valid(t.job)
  {
    var (run, job) := Concluded(t.run, t.job, c, GaveUp(J.LeaseExpired, None), 0, 0, now, true, authorized);
    t.(run := run, job := job)
  }

  function Cancel(t: Task, now: int, authorized: bool): Task {
    var (run, job) := Cancelled(t.run, t.job, now, authorized);
    t.(run := run, job := job)
  }

  lemma ClaimKeeps(t: Task, worker: J.Worker, now: int)
    requires Inv(t, now)
    ensures Inv(Claim(t, worker, now), now)
  {}

  lemma HeartbeatKeeps(t: Task, c: J.Claim, now: int)
    requires Inv(t, now)
    ensures Inv(Heartbeat(t, c, now), now)
  {
    assert forall k :: StageMatches(k, t) ==> StageMatches(k, Heartbeat(t, c, now));
  }

  lemma BeginKeeps(t: Task, p: nat, now: int, authorized: bool, current: bool)
    requires Inv(t, now)
    ensures Inv(Begin(t, p, now, authorized, current), now)
  {}

  lemma ReserveKeeps(t: Task, p: nat, input: nat, output: nat, now: int, conn: C.Conn, permitted: bool)
    requires Inv(t, now)
    ensures Inv(Reserve(t, p, input, output, now, conn, permitted), now)
  {}

  lemma SendKeeps(t: Task, p: nat, now: int)
    requires Inv(t, now)
    ensures Inv(Send(t, p, now), now)
  {}

  lemma CompleteKeeps(t: Task, p: nat, v: Verdict, input: nat, output: nat, now: int, authorized: bool)
    requires Inv(t, now)
    ensures Inv(Complete(t, p, v, input, output, now, authorized), now)
  {}

  lemma RecoverKeeps(t: Task, c: J.Claim, now: int, authorized: bool)
    requires Inv(t, now)
    ensures Inv(Recover(t, c, now, authorized), now)
  {}

  lemma CancelKeeps(t: Task, now: int, authorized: bool)
    requires Inv(t, now)
    ensures Inv(Cancel(t, now, authorized), now)
  {}

  lemma TickKeeps(t: Task, now: int, later: int)
    requires Inv(t, now) && now <= later
    ensures Inv(t, later)
  {}
}
