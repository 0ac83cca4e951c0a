/** The whole job protocol as a step system. Every `transaction(...)` block of the four workers, of
    the services and of the runner is one atomic step; the other steps are clock ticks, changes of
    a repository connection and the provider calls of a review worker. Steps come in any order from
    any number of workers: a worker that crashed takes no more steps, a worker that was stalled
    takes its next one arbitrarily late, and except for reviews, whose workers are followed through
    their stages, any claim value at all may be presented. A step whose guard fails changes nothing. */
module Protocol {
  import opened Options
  import opened Runs
  import J = Jobs
  import C = Connections
  import A = AnalysisRuns
  import R = ReviewRuns
  import S = SyncRuns
  import D = Deliveries

  const DAY := 86400

  /** A job with the row it works on: (kind, aggregate) is unique, so they come in pairs. */
  datatype Task =
    | Analysis(pr: nat, analysis: A.Row, aJob: J.Row)
    | Review(workspace: nat, review: R.Task)
    | Sync(sync: S.Row, sJob: J.Row)
    | Webhook(delivery: D.Row, wJob: J.Row)

  function Job(t: Task): J.Row {
    match t
    case Analysis(_, _, job) => job
    case Review(_, r) => r.job
    case Sync(_, job) => job
    case Webhook(_, job) => job
  }

  datatype System = System(now: nat, conns: seq<C.Conn>, tasks: seq<Task>, dailyLimit: nat)

  datatype Step =
    | Tick(seconds: nat)
    | OpenConnection | Reconnect(r: nat) | Disconnect(r: nat) | Suspend(r: nat)
    | StartAnalysis(pr: nat, r: nat) | StartReview(workspace: nat, r: nat)
    | StartSync(r: nat, mode: S.Mode) | Receive(mapped: Option<nat>, number: nat)
    | Claim(t: nat, worker: J.Worker) | Heartbeat(t: nat, c: J.Claim)
    | BeginAnalysis(t: nat, c: J.Claim, permitted: bool, current: bool)
    | CompleteAnalysis(t: nat, c: J.Claim, result: A.Verdict, permitted: bool)
    | RecoverAnalysis(t: nat, c: J.Claim, permitted: bool)
    | CancelAnalysis(t: nat, permitted: bool)
    | BeginReview(t: nat, p: nat, permitted: bool, current: bool)
    | ReserveReview(t: nat, p: nat, input: nat, output: nat, permitted: bool)
    | SendReview(t: nat, p: nat)
    | CompleteReview(t: nat, p: nat, verdict: R.Verdict, input: nat, output: nat, permitted: bool)
    | RecoverReview(t: nat, c: J.Claim, permitted: bool)
    | CancelReview(t: nat, permitted: bool)
    | BeginSync(t: nat, c: J.Claim, permitted: bool)
    | CompleteSync(t: nat, c: J.Claim, fetched: S.Verdict, permitted: bool)
    | RecoverSync(t: nat, c: J.Claim, permitted: bool)
    | ExecuteDelivery(t: nat, c: J.Claim, expired: bool, permitted: bool, targets: set<nat>)

  // ---- Admission: at most one active run per key, and a daily limit on reviews ----

  datatype Key = PullRequest(n: nat) | Workspace(n: nat) | Repository(n: nat)

  /** What an active run occupies: `start` and `enqueue` refuse a second one. */
  function Occupies(t: Task): Option<Key> {
    match t
    case Analysis(pr, run, _) => if Terminal(run.status) then None else Some(PullRequest(pr))
    case Review(w, r) => if Terminal(r.run.status) then None else Some(Workspace(w))
    case Sync(run, _) => if S.Active(run) then Some(Repository(run.repo)) else None
    case Webhook(_, _) => None
  }

  ghost predicate Busy(tasks: seq<Task>, k: Key) { exists t <- tasks :: Occupies(t) == Some(k) }

  function Midnight(now: nat): nat { now - now % DAY }

  /** A review of this workspace created from `since` on (and before `until`). */
  predicate BornIn(t: Task, workspace: nat, since: int, until: int) {
    t.Review? && t.workspace == workspace && since <= t.review.run.createdAt < until
  }

  function Born(tasks: seq<Task>, workspace: nat, since: int, until: int): nat {
    if tasks == [] then 0
    else Born(tasks[..|tasks| - 1], workspace, since, until)
         + (if BornIn(tasks[|tasks| - 1], workspace, since, until) then 1 else 0)
  }

  /** Reviews of the UTC day that starts at `midnight`. */
  function BornOn(tasks: seq<Task>, workspace: nat, midnight: nat): nat {
    Born(tasks, workspace, midnight, midnight + DAY)
  }

  /** Provider calls made by those reviews. */
  function Calls(tasks: seq<Task>, workspace: nat, since: int, until: int): nat {
    if tasks == [] then 0
    else var last := tasks[|tasks| - 1];
         Calls(tasks[..|tasks| - 1], workspace, since, until)
         + (if BornIn(last, workspace, since, until) then |last.review.calls| else 0)
  }

  // ---- The invariant ----

  ghost predicate TaskInv(t: Task, now: int) {
    match t
    case Analysis(_, run, job) => A.Inv(run, job)
    case Review(_, r) => R.Inv(r, now)
    case Sync(run, job) => S.Inv(run, job)
    case Webhook(d, job) => D.Inv(d, job)
  }

  ghost predicate OneActivePerKey(tasks: seq<Task>) {
    forall i, j :: 0 <= i < j < |tasks| && Occupies(tasks[i]).Some? ==> Occupies(tasks[i]) != Occupies(tasks[j])
  }

  ghost predicate WithinDailyLimit(s: System) {
    forall w: nat, m: nat :: m % DAY == 0 ==> BornOn(s.tasks, w, m) <= s.dailyLimit
  }

  ghost predicate Inv(s: System) {
    && (forall i :: 0 <= i < |s.tasks| ==> TaskInv(s.tasks[i], s.now))
    && OneActivePerKey(s.tasks) && WithinDailyLimit(s)
  }

  function Initial(dailyLimit: nat): System { System(0, [], [], dailyLimit) }

  // ---- The steps ----

  function ConnAt(s: System, r: nat): C.Conn {
    if r < |s.conns| then s.conns[r] else C.Conn(C.Disconnected, 0, None)
  }

  function SetConn(s: System, r: nat, c: C.Conn): System {
    if r < |s.conns| then s.(conns := s.conns[r := c]) else s
  }

  function SuspendAll(conns: seq<C.Conn>, targets: set<nat>): seq<C.Conn> {
    seq(|conns|, i requires 0 <= i < |conns| => if i in targets then C.Halted(conns[i]) else conns[i])
  }

  function Put(s: System, t: nat, task: Task): System
    requires t < |s.tasks|
  {
    s.(tasks := s.tasks[t := task])
  }

  function Add(s: System, task: Task): System { s.(tasks := s.tasks + [task]) }

  /** The last run completed for the same request in the same generation of the connection. */
  function Cached(tasks: seq<Task>, repo: nat, generation: nat, mode: S.Mode): Option<S.Row> {
    if tasks == [] then None
    else
      var best, last := Cached(tasks[..|tasks| - 1], repo, generation, mode), tasks[|tasks| - 1];
      if last.Sync? && Answers(last.sync, repo, generation, mode)
         && (best.None? || !FinishedAfter(best.value, last.sync))
      then Some(last.sync) else best
  }

  predicate Answers(run: S.Row, repo: nat, generation: nat, mode: S.Mode) {
    run.status.Completed? && run.repo == repo && run.connection == generation && run.mode == mode
  }

  predicate FinishedAfter(a: S.Row, b: S.Row) {
    a.finishedAt.Some? && (b.finishedAt.None? || b.finishedAt.value < a.finishedAt.value)
  }

  /** A pull_request event is followed by a synchronisation of that one pull request, from nothing cached. */
  function EventSync(event: D.Event): S.Row
    requires event.PullRequest?
  {
    S.Accepted(event.repo, event.connection, true, S.Single(event.number), None)
  }

  ghost function Admit(s: System, step: Step): System {
    match step
    case StartAnalysis(pr, r) =>
      if !ConnAt(s, r).status.Active? || Busy(s.tasks, PullRequest(pr)) then s
      else Add(s, Analysis(pr, A.Accepted(r, ConnAt(s, r).generation), J.Enqueued(s.now)))
    case StartReview(w, r) =>
      if !ConnAt(s, r).status.Active? || Busy(s.tasks, Workspace(w))
         || Born(s.tasks, w, Midnight(s.now), s.now + 1) >= s.dailyLimit then s
      else Add(s, Review(w, R.Created(r, ConnAt(s, r).generation, s.now)))
    case StartSync(r, mode) =>
      var g := ConnAt(s, r).generation;
      if !ConnAt(s, r).status.Active? || Busy(s.tasks, Repository(r)) then s
      else Add(s, Sync(S.Accepted(r, g, false, mode, Cached(s.tasks, r, g, mode)), J.Enqueued(s.now)))
    case Receive(None, _) => Add(s, Webhook(D.Received(D.Installation), J.Enqueued(s.now)))
    case Receive(Some(r), number) =>
      if !ConnAt(s, r).status.Active? then s
      else Add(s, Webhook(D.Received(D.PullRequest(r, ConnAt(s, r).generation, number)), J.Enqueued(s.now)))
    case _ => s
  }

  function Change(s: System, step: Step): System {
    match step
    case Tick(d) => s.(now := s.now + d)
    case OpenConnection => s.(conns := s.conns + [C.FRESH])
    case Reconnect(r) => SetConn(s, r, C.Reconnected(ConnAt(s, r)))
    case Disconnect(r) => SetConn(s, r, C.Closed(ConnAt(s, r)))
    case Suspend(r) => SetConn(s, r, C.Halted(ConnAt(s, r)))
    case _ => s
  }

  /** What a step does to the pair of job and row it names, worker by worker. */
  function OnAnalysis(s: System, run: A.Row, job: J.Row, step: Step): (A.Row, J.Row)
    requires J.Valid(job)
  {
    var open := C.Open(ConnAt(s, run.repo), run.connection);
    match step
    case Claim(_, worker) => (run, Leased(job, worker, s.now))
    case Heartbeat(_, c) => (run, Extended(job, c, s.now))
    case BeginAnalysis(_, c, permitted, current) => (A.Begun(run, job, c, s.now, permitted && open, current), job)
    case CompleteAnalysis(_, c, v, permitted) => A.Concluded(run, job, c, v, s.now, false, permitted && open)
    case RecoverAnalysis(_, c, permitted) => A.Concluded(run, job, c, A_RECOVERY, s.now, true, permitted && open)
    case CancelAnalysis(_, permitted) => A.Cancelled(run, job, s.now, permitted)
    case _ => (run, job)
  }

  function OnReview(s: System, r: R.Task, step: Step): R.Task
    requires J.Valid(r.job)
  {
    var conn := ConnAt(s, r.run.repo);
    var open := C.Open(conn, r.run.connection);
    match step
    case Claim(_, worker) => R.Claim(r, worker, s.now)
    case Heartbeat(_, c) => R.Heartbeat(r, c, s.now)
    case BeginReview(_, p, permitted, current) => R.Begin(r, p, s.now, permitted && open, current)
    case ReserveReview(_, p, input, output, permitted) => R.Reserve(r, p, input, output, s.now, conn, permitted)
    case SendReview(_, p) => R.Send(r, p, s.now)
    case CompleteReview(_, p, v, input, output, permitted) =>
      R.Complete(r, p, v, input, output, s.now, permitted && open)
    case RecoverReview(_, c, permitted) => R.Recover(r, c, s.now, permitted && open)
    case CancelReview(_, permitted) => R.Cancel(r, s.now, permitted && open)
    case _ => r
  }

  function OnSync(s: System, run: S.Row, job: J.Row, step: Step): (S.Row, J.Row)
    requires J.Valid(job)
  {
    var conn := ConnAt(s, run.repo);
    match step
    case Claim(_, worker) => (run, Leased(job, worker, s.now))
    case Heartbeat(_, c) => (run, Extended(job, c, s.now))
    case BeginSync(_, c, permitted) => (S.Begun(run, job, conn, c, s.now, permitted), job)
    case CompleteSync(_, c, v, permitted) =>
      var (run', job', _) := S.Concluded(run, job, conn, c, v, s.now, false, permitted);
      (run', job')
    case RecoverSync(_, c, permitted) =>
      var (run', job', _) := S.Concluded(run, job, conn, c, S_RECOVERY, s.now, true, permitted);
      (run', job')
    case _ => (run, job)
  }

  ghost function OnDelivery(s: System, d: D.Row, job: J.Row, step: Step): (D.Row, J.Row)
    requires J.Valid(job)
  {
    match step
    case Claim(_, worker) => (d, Leased(job, worker, s.now))
    case Heartbeat(_, c) => (d, Extended(job, c, s.now))
    case ExecuteDelivery(_, c, expired, permitted, _) =>
      var (d', job', _) := Executed(s, d, job, c, expired, permitted);
      (d', job')
    case _ => (d, job)
  }

  /** What `execute` passes on when it is called for an expired lease. */
  const A_RECOVERY := A.GaveUp(J.LeaseExpired, true, 5)
  const S_RECOVERY := S.GaveUp(J.LeaseExpired, true, 5)

  function Leased(job: J.Row, worker: J.Worker, now: int): J.Row {
    if J.Claimable(job, now) then J.Claimed(job, worker, now) else job
  }

  function Extended(job: J.Row, c: J.Claim, now: int): J.Row {
    if J.Fenced(job, c, now, false) then J.Renewed(job, now) else job
  }

  ghost function Act(s: System, task: Task, step: Step): Task
    requires TaskInv(task, s.now)
  {
    match task
    case Analysis(pr, run, job) => var (run', job') := OnAnalysis(s, run, job, step); Analysis(pr, run', job')
    case Review(w, r) => Review(w, OnReview(s, r, step))
    case Sync(run, job) => var (run', job') := OnSync(s, run, job, step); Sync(run', job')
    case Webhook(d, job) => var (d', job') := OnDelivery(s, d, job, step); Webhook(d', job')
  }

  ghost function Executed(s: System, d: D.Row, job: J.Row, c: J.Claim, expired: bool,
                          permitted: bool): (D.Row, J.Row, D.Effect)
    requires J.Valid(job)
  {
    var repo := if d.event.PullRequest? then d.event.repo else 0;
    D.Executed(d, job, ConnAt(s, repo), c, s.now, expired, permitted, Busy(s.tasks, Repository(repo)))
  }

  /** What a step does beside its task: a lost GitHub access or an installation event suspends
      connections, a pull request event starts a synchronisation. */
  ghost function Beside(s: System, task: Task, step: Step): System
    requires TaskInv(task, s.now)
  {
    match (step, task)
    case (CompleteSync(_, c, v, permitted), Sync(run, job)) =>
      SetConn(s, run.repo, S.Concluded(run, job, ConnAt(s, run.repo), c, v, s.now, false, permitted).2)
    case (ExecuteDelivery(_, c, expired, permitted, targets), Webhook(d, job)) =>
      (match Executed(s, d, job, c, expired, permitted).2
       case Nothing => s
       case StartSync => Add(s, Sync(EventSync(d.event), J.Enqueued(s.now)))
       case SuspendTargets => s.(conns := SuspendAll(s.conns, targets)))
    case _ => s
  }

  function Target(step: Step): Option<nat> {
    match step
    case Tick(_) => None
    case OpenConnection => None
    case Reconnect(_) => None
    case Disconnect(_) => None
    case Suspend(_) => None
    case StartAnalysis(_, _) => None
    case StartReview(_, _) => None
    case StartSync(_, _) => None
    case Receive(_, _) => None
    case _ => Some(step.t)
  }

  ghost function Apply(s: System, step: Step): System
    requires Inv(s)
  {
    match Target(step)
    case None => Admit(Change(s, step), step)
    case Some(t) => if t >= |s.tasks| then s
                    else Put(Beside(s, s.tasks[t], step), t, Act(s, s.tasks[t], step))
  }

  // ---- Every step keeps the invariant ----

  /** The creation of a review never changes, a run never comes back to life, and its key, its
      connection and its job's history of leases only move forward. */
  ghost predicate Follows(a: Task, b: Task) {
    && J.Advances(Job(a), Job(b))
    && (Occupies(b) == None || Occupies(b) == Occupies(a))
    && (a.Analysis? <==> b.Analysis?) && (a.Review? <==> b.Review?) && (a.Sync? <==> b.Sync?)
    && (a.Review? ==> a.workspace == b.workspace && a.review.run.createdAt == b.review.run.createdAt)
  }

  lemma AnalysisKeeps(s: System, run: A.Row, job: J.Row, step: Step)
    requires A.Inv(run, job)
    ensures var (run', job') := OnAnalysis(s, run, job, step); A.Inv(run', job')
  {
    var open := C.Open(ConnAt(s, run.repo), run.connection);
    match step {
      case BeginAnalysis(_, c, permitted, current) => A.BeginKeeps(run, job, c, s.now, permitted && open, current);
      case CancelAnalysis(_, permitted) => A.CancelKeeps(run, job, s.now, permitted);
      case CompleteAnalysis(_, c, v, permitted) => A.ConcludeKeeps(run, job, c, v, s.now, false, permitted && open);
      case RecoverAnalysis(_, c, permitted) => A.ConcludeKeeps(run, job, c, A_RECOVERY, s.now, true, permitted && open);
      case _ =>
    }
  }

  lemma AnalysisEndsForGood(s: System, run: A.Row, job: J.Row, step: Step)
    requires A.Inv(run, job)
    ensures Terminal(run.status) ==> OnAnalysis(s, run, job, step).0 == run
  {}

  lemma AnalysisJobAdvances(s: System, run: A.Row, job: J.Row, step: Step)
    requires J.Valid(job) && A.Lockstep(run, job)
    ensures J.Advances(job, OnAnalysis(s, run, job, step).1)
  {}

  lemma ReviewKeeps(s: System, r: R.Task, step: Step)
    requires R.Inv(r, s.now)
    ensures R.Inv(OnReview(s, r, step), s.now)
  {
    var open := C.Open(ConnAt(s, r.run.repo), r.run.connection);
    match step {
      case Claim(_, worker) => R.ClaimKeeps(r, worker, s.now);
      case Heartbeat(_, c) => R.HeartbeatKeeps(r, c, s.now);
      case BeginReview(_, p, permitted, current) => R.BeginKeeps(r, p, s.now, permitted && open, current);
      case ReserveReview(_, p, input, output, permitted) =>
        R.ReserveKeeps(r, p, input, output, s.now, ConnAt(s, r.run.repo), permitted);
      case SendReview(_, p) => R.SendKeeps(r, p, s.now);
      case CompleteReview(_, p, v, input, output, permitted) =>
        R.CompleteKeeps(r, p, v, input, output, s.now, permitted && open);
      case RecoverReview(_, c, permitted) => R.RecoverKeeps(r, c, s.now, permitted && open);
      case CancelReview(_, permitted) => R.CancelKeeps(r, s.now, permitted && open);
      case _ =>
    }
  }

  lemma ReviewEndsForGood(s: System, r: R.Task, step: Step)
    requires J.Valid(r.job)
    ensures var r' := OnReview(s, r, step);
            && (Terminal(r.run.status) ==> r'.run.status == r.run.status && r'.run.callAttempts == r.run.callAttempts)
            && r'.run.createdAt == r.run.createdAt && r'.run.repo == r.run.repo && r'.run.connection == r.run.connection
  {}

  lemma ReviewJobAdvances(s: System, r: R.Task, step: Step)
    requires J.Valid(r.job) && R.Lockstep(r.run, r.job)
    ensures J.Advances(r.job, OnReview(s, r, step).job)
  {}

  lemma SyncJobAdvances(s: System, run: S.Row, job: J.Row, step: Step)
    requires S.Inv(run, job)
    ensures J.Advances(job, OnSync(s, run, job, step).1)
  {}

  lemma SyncEndsForGood(s: System, run: S.Row, job: J.Row, step: Step)
    requires S.Inv(run, job)
    ensures var run' := OnSync(s, run, job, step).0;
            (Terminal(run.status) ==> run' == run) && run'.repo == run.repo
  {}

  lemma SyncKeeps(s: System, run: S.Row, job: J.Row, step: Step)
    requires S.Inv(run, job)
    ensures var (run', job') := OnSync(s, run, job, step); S.Inv(run', job')
  {
    match step {
      case BeginSync(_, c, permitted) => S.BeginKeeps(run, job, ConnAt(s, run.repo), c, s.now, permitted);
      case CompleteSync(_, c, v, permitted) =>
        S.ConcludeKeeps(run, job, ConnAt(s, run.repo), c, v, s.now, false, permitted);
      case RecoverSync(_, c, permitted) =>
        S.ConcludeKeeps(run, job, ConnAt(s, run.repo), c, S_RECOVERY, s.now, true, permitted);
      case _ =>
    }
  }

  lemma DeliveryKeeps(s: System, d: D.Row, job: J.Row, step: Step)
    requires D.Inv(d, job)
    ensures var (d', job') := OnDelivery(s, d, job, step); D.Inv(d', job') && J.Advances(job, job')
  {
    if step.ExecuteDelivery? {
      var repo := if d.event.PullRequest? then d.event.repo else 0;
      D.ExecuteKeeps(d, job, ConnAt(s, repo), step.c, s.now, step.expired, step.permitted,
                     Busy(s.tasks, Repository(repo)));
    }
  }

  lemma ActKeeps(s: System, task: Task, step: Step)
    requires TaskInv(task, s.now)
    ensures TaskInv(Act(s, task, step), s.now) && Follows(task, Act(s, task, step))
  {
    match task {
      case Analysis(_, run, job) =>
        AnalysisKeeps(s, run, job, step);
        AnalysisEndsForGood(s, run, job, step);
        AnalysisJobAdvances(s, run, job, step);
      case Review(_, r) =>
        ReviewKeeps(s, r, step);
        ReviewEndsForGood(s, r, step);
        ReviewJobAdvances(s, r, step);
      case Sync(run, job) =>
        SyncKeeps(s, run, job, step);
        SyncEndsForGood(s, run, job, step);
        SyncJobAdvances(s, run, job, step);
      case Webhook(d, job) => DeliveryKeeps(s, d, job, step);
    }
  }

  lemma {:induction false} BornUnchanged(tasks: seq<Task>, t: nat, task: Task, w: nat, since: int, until: int)
    requires t < |tasks| && Follows(tasks[t], task)
    ensures Born(tasks[t := task], w, since, until) == Born(tasks, w, since, until)
  {
    var n := |tasks| - 1;
    if t < n {
      assert tasks[t := task][..n] == tasks[..n][t := task];
      BornUnchanged(tasks[..n], t, task, w, since, until);
    } else {
      assert tasks[t := task][..n] == tasks[..n];
    }
  }

  lemma PutKeeps(s: System, t: nat, task: Task)
    requires Inv(s) && t < |s.tasks|
    requires TaskInv(task, s.now) && Follows(s.tasks[t], task)
    ensures Inv(Put(s, t, task))
  {
    forall w: nat, m: nat | m % DAY == 0
      ensures BornOn(Put(s, t, task).tasks, w, m) <= s.dailyLimit
    {
      BornUnchanged(s.tasks, t, task, w, m, m + DAY);
      assert BornOn(s.tasks, w, m) <= s.dailyLimit;
    }
  }

  lemma BornAfterAdd(tasks: seq<Task>, task: Task, w: nat, since: int, until: int)
    ensures Born(tasks + [task], w, since, until)
            == Born(tasks, w, since, until) + (if BornIn(task, w, since, until) then 1 else 0)
  {
    assert (tasks + [task])[..|tasks|] == tasks;
  }

  lemma AddKeeps(s: System, task: Task)
    requires Inv(s) && TaskInv(task, s.now)
    requires Occupies(task).Some? ==> !Busy(s.tasks, Occupies(task).value)
    requires forall w: nat, m: nat :: m % DAY == 0 && BornIn(task, w, m, m + DAY) ==>
               BornOn(s.tasks, w, m) < s.dailyLimit
    ensures Inv(Add(s, task))
  {
    var tasks := Add(s, task).tasks;
    forall w: nat, m: nat | m % DAY == 0
      ensures BornOn(tasks, w, m) <= s.dailyLimit
    {
      BornAfterAdd(s.tasks, task, w, m, m + DAY);
      assert BornOn(s.tasks, w, m) <= s.dailyLimit;
    }
    forall i, j | 0 <= i < j < |tasks| && Occupies(tasks[i]).Some?
      ensures Occupies(tasks[i]) != Occupies(tasks[j])
    {
      if j == |s.tasks| {
        assert tasks[i] in s.tasks;
      }
    }
  }

  /** The query of `start` counts from midnight on; no review is younger than the clock, so that is
      the count of today. */
  lemma {:induction false} TodayIsSinceMidnight(tasks: seq<Task>, w: nat, now: nat)
    requires forall i :: 0 <= i < |tasks| ==> TaskInv(tasks[i], now)
    ensures Born(tasks, w, Midnight(now), now + 1) == BornOn(tasks, w, Midnight(now))
  {
    if tasks != [] {
      var n := |tasks| - 1;
      assert forall i :: 0 <= i < n ==> tasks[..n][i] == tasks[i];
      TodayIsSinceMidnight(tasks[..n], w, now);
      assert TaskInv(tasks[n], now);
    }
  }

  lemma SameDay(now: nat, m: nat)
    requires m % DAY == 0 && m <= now < m + DAY
    ensures m == Midnight(now)
  {}

  lemma {:induction false} CachedFollows(tasks: seq<Task>, now: int, repo: nat, generation: nat, mode: S.Mode)
    requires forall i :: 0 <= i < |tasks| ==> TaskInv(tasks[i], now)
    ensures var cached := Cached(tasks, repo, generation, mode);
            cached.Some? ==> cached.value.mode == mode && S.NextFollows(cached.value)
  {
    if tasks != [] {
      CachedFollows(tasks[..|tasks| - 1], now, repo, generation, mode);
      assert TaskInv(tasks[|tasks| - 1], now);
    }
  }

  lemma AdmitKeeps(s: System, step: Step)
    requires Inv(s)
    ensures Inv(Admit(s, step))
  {
    match step {
      case StartAnalysis(pr, r) =>
        A.AcceptKeeps(r, ConnAt(s, r).generation, s.now);
        if Admit(s, step) != s {
          AddKeeps(s, Analysis(pr, A.Accepted(r, ConnAt(s, r).generation), J.Enqueued(s.now)));
        }
      case StartReview(w, r) =>
        var task := Review(w, R.Created(r, ConnAt(s, r).generation, s.now));
        TodayIsSinceMidnight(s.tasks, w, s.now);
        if Admit(s, step) != s {
          forall v: nat, m: nat | m % DAY == 0 && BornIn(task, v, m, m + DAY)
            ensures BornOn(s.tasks, v, m) < s.dailyLimit
          {
            SameDay(s.now, m);
          }
          AddKeeps(s, task);
        }
      case StartSync(r, mode) =>
        var g := ConnAt(s, r).generation;
        var cached := Cached(s.tasks, r, g, mode);
        CachedFollows(s.tasks, s.now, r, g, mode);
        S.AcceptKeeps(r, g, false, mode, cached, s.now);
        if Admit(s, step) != s {
          AddKeeps(s, Sync(S.Accepted(r, g, false, mode, cached), J.Enqueued(s.now)));
        }
      case Receive(mapped, number) =>
        J.EnqueueValid(s.now);
        if mapped.None? {
          AddKeeps(s, Webhook(D.Received(D.Installation), J.Enqueued(s.now)));
        } else {
          var conn := ConnAt(s, mapped.value);
          AddKeeps(s, Webhook(D.Received(D.PullRequest(mapped.value, conn.generation, number)), J.Enqueued(s.now)));
        }
      case _ =>
    }
  }

  lemma ChangeKeeps(s: System, step: Step)
    requires Inv(s)
    ensures Inv(Change(s, step)) && |Change(s, step).tasks| == |s.tasks| && s.now <= Change(s, step).now
  {
    if step.Tick? {
      forall i | 0 <= i < |s.tasks|
        ensures TaskInv(s.tasks[i], s.now + step.seconds)
      {
        if s.tasks[i].Review? {
          R.TickKeeps(s.tasks[i].review, s.now, s.now + step.seconds);
        }
      }
    }
  }

  lemma InvIgnoresConnections(s: System, s': System)
    requires Inv(s) && s' == s.(conns := s'.conns)
    ensures Inv(s')
  {
    assert forall w: nat, m: nat :: BornOn(s'.tasks, w, m) == BornOn(s.tasks, w, m);
  }

  lemma EventSyncKeeps(s: System, event: D.Event)
    requires Inv(s) && event.PullRequest? && !Busy(s.tasks, Repository(event.repo))
    ensures Inv(Add(s, Sync(EventSync(event), J.Enqueued(s.now))))
  {
    S.AcceptKeeps(event.repo, event.connection, true, S.Single(event.number), None, s.now);
    AddKeeps(s, Sync(EventSync(event), J.Enqueued(s.now)));
  }

  /** Beside its task a step changes connections, or adds the synchronisation an event asks for. */
  lemma BesideIs(s: System, task: Task, step: Step, s': System)
    requires TaskInv(task, s.now) && s' == Beside(s, task, step)
    ensures s' == s.(conns := s'.conns)
            || (&& task.Webhook? && task.delivery.event.PullRequest?
                && !Busy(s.tasks, Repository(task.delivery.event.repo))
                && s' == Add(s, Sync(EventSync(task.delivery.event), J.Enqueued(s.now))))
  {}

  lemma BesideKeeps(s: System, task: Task, step: Step)
    requires Inv(s) && TaskInv(task, s.now)
    ensures Inv(Beside(s, task, step)) && s.tasks <= Beside(s, task, step).tasks && s.now == Beside(s, task, step).now
  {
    var s' := Beside(s, task, step);
    BesideIs(s, task, step, s');
    if s' == s.(conns := s'.conns) {
      InvIgnoresConnections(s, s');
    } else {
      EventSyncKeeps(s, task.delivery.event);
    }
  }

  /** One step, whatever it is. */
  lemma StepKeeps(s: System, step: Step)
    requires Inv(s)
    ensures Inv(Apply(s, step))
    ensures s.now <= Apply(s, step).now && |s.tasks| <= |Apply(s, step).tasks|
  {
    match Target(step) {
      case None =>
        ChangeKeeps(s, step);
        AdmitKeeps(Change(s, step), step);
      case Some(t) =>
        if t < |s.tasks| {
          BesideKeeps(s, s.tasks[t], step);
          ActKeeps(s, s.tasks[t], step);
          PutKeeps(Beside(s, s.tasks[t], step), t, Act(s, s.tasks[t], step));
        }
    }
  }
}
