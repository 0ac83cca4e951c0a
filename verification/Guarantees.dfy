/** What the job protocol guarantees over whole runs: from the empty system, every sequence of
    steps of `Protocol`. */
module Guarantees {
  import opened Options
  import opened Runs
  import opened Protocol
  import J = Jobs
  import C = Connections
  import A = AnalysisRuns
  import R = ReviewRuns
  import S = SyncRuns
  import D = Deliveries

  // ---- Runs ----

  /** How any step moves the system: tasks and connections are only added, each moves forward. */
  ghost predicate Evolves(a: System, b: System) {
    && a.now <= b.now && a.dailyLimit == b.dailyLimit
    && |a.tasks| <= |b.tasks| && (forall t :: 0 <= t < |a.tasks| ==> Follows(a.tasks[t], b.tasks[t]))
    && |a.conns| <= |b.conns| && (forall r :: 0 <= r < |a.conns| ==> C.Moves(a.conns[r], b.conns[r]))
  }

  /** The states a run of steps goes through, the first one included. */
  ghost function History(s: System, steps: seq<Step>): (h: seq<System>)
    requires Inv(s)
    ensures |h| == |steps| + 1 && h[0] == s && (forall i :: 0 <= i <= |steps| ==> Inv(h[i]))
    decreases |steps|
  {
    if steps == [] then [s]
    else
      var n := |steps| - 1;
      var h := History(s, steps[..n]);
      StepKeeps(h[n], steps[n]);
      h + [Apply(h[n], steps[n])]
  }

  ghost function After(s: System, steps: seq<Step>): (end: System)
    requires Inv(s)
    ensures Inv(end)
  {
    History(s, steps)[|steps|]
  }

  lemma {:induction false} HistoryStep(s: System, steps: seq<Step>, i: nat)
    requires Inv(s) && i < |steps|
    ensures History(s, steps)[i + 1] == Apply(History(s, steps)[i], steps[i])
    decreases |steps|
  {
    var n := |steps| - 1;
    if i < n {
      HistoryStep(s, steps[..n], i);
    }
  }

  ghost predicate Chain(h: seq<System>) {
    forall i :: 0 <= i < |h| - 1 ==> Evolves(h[i], h[i + 1])
  }

  lemma HistoryIsChain(s: System, steps: seq<Step>)
    requires Inv(s)
    ensures Chain(History(s, steps))
  {
    var h := History(s, steps);
    forall i | 0 <= i < |h| - 1
      ensures Evolves(h[i], h[i + 1])
    {
      HistoryStep(s, steps, i);
      StepEvolves(h[i], steps[i]);
    }
  }

  lemma OthersStay(s: System, step: Step, t: nat)
    requires Inv(s) && t < |s.tasks| && Target(step) != Some(t)
    ensures t < |Apply(s, step).tasks| && Apply(s, step).tasks[t] == s.tasks[t]
  {
    if Target(step).Some? && Target(step).value < |s.tasks| {
      BesideKeeps(s, s.tasks[Target(step).value], step);
    }
  }

  lemma OwnMoves(s: System, step: Step, t: nat)
    requires Inv(s) && t < |s.tasks| && Target(step) == Some(t)
    ensures t < |Apply(s, step).tasks| && Apply(s, step).tasks[t] == Act(s, s.tasks[t], step)
  {
    BesideKeeps(s, s.tasks[t], step);
  }

  lemma TaskFollows(s: System, step: Step, t: nat)
    requires Inv(s) && t < |s.tasks|
    ensures t < |Apply(s, step).tasks| && Follows(s.tasks[t], Apply(s, step).tasks[t])
  {
    if Target(step) == Some(t) {
      OwnMoves(s, step, t);
      ActKeeps(s, s.tasks[t], step);
    } else {
      OthersStay(s, step, t);
      assert TaskInv(s.tasks[t], s.now);
    }
  }

  lemma ConnStep(s: System, step: Step, r: nat)
    requires Inv(s) && r < |s.conns|
    ensures r < |Apply(s, step).conns| && C.Moves(s.conns[r], Apply(s, step).conns[r])
  {
    match Target(step) {
      case Some(t) =>
        if t < |s.tasks| && step.CompleteSync? && s.tasks[t].Sync? {
          var run := s.tasks[t].sync;
          assert TaskInv(s.tasks[t], s.now);
          S.ConcludeKeeps(run, s.tasks[t].sJob, ConnAt(s, run.repo), step.c, step.fetched, s.now, false,
                          step.permitted);
        }
      case None =>
    }
  }

  lemma StepEvolves(s: System, step: Step)
    requires Inv(s)
    ensures Evolves(s, Apply(s, step))
  {
    StepKeeps(s, step);
    forall t | 0 <= t < |s.tasks|
      ensures t < |Apply(s, step).tasks| && Follows(s.tasks[t], Apply(s, step).tasks[t])
    {
      TaskFollows(s, step, t);
    }
    forall r | 0 <= r < |s.conns|
      ensures r < |Apply(s, step).conns| && C.Moves(s.conns[r], Apply(s, step).conns[r])
    {
      ConnStep(s, step, r);
    }
    ConnsAndLimitStay(s, step);
  }

  lemma ConnsAndLimitStay(s: System, step: Step)
    requires Inv(s)
    ensures |s.conns| <= |Apply(s, step).conns| && Apply(s, step).dailyLimit == s.dailyLimit
  {}

  // ---- Every reachable state ----

  /** Job and run are in lockstep, the job's counters and history agree, result rows are there exactly
      for a completed analysis, and a review is claimed at most once and makes at most two calls, each
      after a reservation of its own. */
  lemma EveryTask(dailyLimit: nat, steps: seq<Step>, t: nat)
    requires t < |After(Initial(dailyLimit), steps).tasks|
    ensures var task := After(Initial(dailyLimit), steps).tasks[t];
            && J.Valid(Job(task))
            && (task.Analysis? ==> A.Lockstep(task.analysis, task.aJob) && A.StoredOnce(task.analysis))
            && (task.Sync? ==> S.Inv(task.sync, task.sJob)) && (task.Webhook? ==> D.Inv(task.delivery, task.wJob))
            && (task.Review? ==>
                  var r := task.review;
                  && R.Lockstep(r.run, r.job) && r.job.generation <= 1
                  && |r.calls| <= |r.reservations| == r.run.callAttempts <= 2
                  && forall k :: 0 <= k < |r.calls| ==>
                       R.Sound(r.reservations[k], r.run) && r.reservations[k].at <= r.calls[k])
  {
    assert TaskInv(After(Initial(dailyLimit), steps).tasks[t], After(Initial(dailyLimit), steps).now);
  }

  /** No pull request has two active analyses, no workspace two active reviews, no repository two
      active synchronizations; and a workspace starts no more reviews in a UTC day than its limit. */
  lemma OneActiveEach(dailyLimit: nat, steps: seq<Step>, i: nat, j: nat, w: nat, midnight: nat)
    requires i < j < |After(Initial(dailyLimit), steps).tasks| && midnight % DAY == 0
    ensures var tasks := After(Initial(dailyLimit), steps).tasks;
            && (tasks[i].Analysis? && tasks[j].Analysis? && tasks[i].pr == tasks[j].pr ==>
                  Terminal(tasks[i].analysis.status) || Terminal(tasks[j].analysis.status))
            && (tasks[i].Review? && tasks[j].Review? && tasks[i].workspace == tasks[j].workspace ==>
                  Terminal(tasks[i].review.run.status) || Terminal(tasks[j].review.run.status))
            && (tasks[i].Sync? && tasks[j].Sync? && tasks[i].sync.repo == tasks[j].sync.repo ==>
                  !S.Active(tasks[i].sync) || !S.Active(tasks[j].sync))
            && BornOn(tasks, w, midnight) <= dailyLimit
  {
    var s := After(Initial(dailyLimit), steps);
    HistoryIsChain(Initial(dailyLimit), steps);
    LimitStays(History(Initial(dailyLimit), steps));
    assert Occupies(s.tasks[i]).Some? ==> Occupies(s.tasks[i]) != Occupies(s.tasks[j]);
    assert BornOn(s.tasks, w, midnight) <= s.dailyLimit;
  }

  // ---- Each lease generation is finished at most once ----

  predicate HasLease(s: System, t: nat, g: nat) {
    t < |s.tasks| && Job(s.tasks[t]).state.Leased? && Job(s.tasks[t]).generation == g
  }

  ghost predicate Closes(s: System, step: Step, t: nat, g: nat)
    requires Inv(s)
  {
    HasLease(s, t, g) && !HasLease(Apply(s, step), t, g)
  }

  /** Generation `g` of the job has been leased and is over. */
  predicate Spent(s: System, t: nat, g: nat) {
    && t < |s.tasks|
    && (g < Job(s.tasks[t]).generation || (g == Job(s.tasks[t]).generation && !Job(s.tasks[t]).state.Leased?))
  }

  lemma {:induction false} StaysSpent(h: seq<System>, i: nat, j: nat, t: nat, g: nat)
    requires Chain(h) && i <= j < |h| && Spent(h[i], t, g)
    ensures Spent(h[j], t, g)
    decreases j
  {
    if i < j {
      StaysSpent(h, i, j - 1, t, g);
      assert Evolves(h[j - 1], h[j - 1 + 1]);
    }
  }

  lemma LeaseClosedOnce(s: System, steps: seq<Step>, i: nat, j: nat, t: nat, g: nat)
    requires Inv(s) && i < j < |steps|
    requires Closes(History(s, steps)[i], steps[i], t, g)
    ensures !Closes(History(s, steps)[j], steps[j], t, g)
  {
    var h := History(s, steps);
    HistoryIsChain(s, steps);
    HistoryStep(s, steps, i);
    assert Evolves(h[i], h[i + 1]);
    StaysSpent(h, i + 1, j, t, g);
  }

  /** Who may close a lease: its holder while it is live, anyone by recovery once it has run out,
      and a user who cancels. */
  predicate MayClose(s: System, step: Step, t: nat, g: nat)
    requires t < |s.tasks|
  {
    match step
    case CancelAnalysis(u, permitted) => u == t && permitted
    case CancelReview(u, permitted) => u == t && permitted
    case CompleteReview(u, p, _, _, _, _) =>
      && u == t && s.tasks[t].Review? && p < |s.tasks[t].review.procs|
      && s.tasks[t].review.procs[p].claim.generation == g
      && J.Fenced(Job(s.tasks[t]), s.tasks[t].review.procs[p].claim, s.now, false)
    case CompleteAnalysis(u, c, _, _) => u == t && c.generation == g && J.Fenced(Job(s.tasks[t]), c, s.now, false)
    case CompleteSync(u, c, _, _) => u == t && c.generation == g && J.Fenced(Job(s.tasks[t]), c, s.now, false)
    case ExecuteDelivery(u, c, e, _, _) => u == t && c.generation == g && J.Fenced(Job(s.tasks[t]), c, s.now, e)
    case RecoverAnalysis(u, c, _) => u == t && c.generation == g && J.Fenced(Job(s.tasks[t]), c, s.now, true)
    case RecoverSync(u, c, _) => u == t && c.generation == g && J.Fenced(Job(s.tasks[t]), c, s.now, true)
    case RecoverReview(u, c, _) => u == t && c.generation == g && J.Fenced(Job(s.tasks[t]), c, s.now, true)
    case _ => false
  }

  lemma OnlyTheEntitledClose(s: System, step: Step, t: nat, g: nat)
    requires Inv(s) && Closes(s, step, t, g)
    ensures MayClose(s, step, t, g)
  {
    if Target(step) == Some(t) {
      OwnMoves(s, step, t);
    } else {
      OthersStay(s, step, t);
    }
  }

  // ---- A job's budget ----

  /** How often the job of a task changed state: claims, finishes and cancels. */
  ghost function StateChanges(h: seq<System>, t: nat): nat
    requires forall i :: 0 <= i < |h| ==> t < |h[i].tasks|
  {
    if |h| < 2 then 0
    else StateChanges(h[..|h| - 1], t)
         + (if Job(h[|h| - 2].tasks[t]).state != Job(h[|h| - 1].tasks[t]).state then 1 else 0)
  }

  lemma {:induction false} ChangesCostBudget(h: seq<System>, t: nat)
    requires Chain(h) && h != [] && t < |h[0].tasks|
    ensures forall i :: 0 <= i < |h| ==> t < |h[i].tasks|
    ensures var first, last := Job(h[0].tasks[t]), Job(h[|h| - 1].tasks[t]);
            && StateChanges(h, t) + J.Remaining(last) <= J.Remaining(first)
            && last.maxAttempts == first.maxAttempts
    decreases |h|
  {
    if 1 < |h| {
      var n := |h| - 1;
      ChangesCostBudget(h[..n], t);
      assert Evolves(h[n - 1], h[n - 1 + 1]);
      assert h[..n][n - 1] == h[n - 1];
      forall i | 0 <= i < |h|
        ensures t < |h[i].tasks|
      {
        if i < n {
          assert h[..n][i] == h[i];
        }
      }
    }
  }

  /** A job is claimed at most `max_attempts` times, and changes state by claims, finishes and
      cancels at most twice that often, in any run. */
  lemma JobStepsAreBounded(s: System, steps: seq<Step>, t: nat)
    requires Inv(s) && t < |s.tasks|
    ensures forall i :: 0 <= i <= |steps| ==> t < |History(s, steps)[i].tasks|
    ensures var first, last := Job(s.tasks[t]), Job(After(s, steps).tasks[t]);
            && StateChanges(History(s, steps), t) <= J.Remaining(first) <= 2 * first.maxAttempts
            && last.generation == last.attempts <= first.maxAttempts
  {
    var h := History(s, steps);
    HistoryIsChain(s, steps);
    ChangesCostBudget(h, t);
    assert TaskInv(h[0].tasks[t], h[0].now) && TaskInv(h[|steps|].tasks[t], h[|steps|].now);
  }

  // ---- Results are written once, by the holder of the live lease ----

  /** This step stored exactly these rows: the verdict of the holder of the unexpired lease. */
  predicate Writes(s: System, step: Step, t: nat, run: A.Row) {
    && t < |s.tasks| && s.tasks[t].Analysis?
    && step.CompleteAnalysis? && step.t == t && step.result.Done?
    && step.result.result.files == run.files && step.result.result.findings == run.findings
    && J.Fenced(s.tasks[t].aJob, step.c, s.now, false)
    && step.permitted && C.Open(ConnAt(s, run.repo), run.connection)
  }

  lemma AnalysisStep(s: System, step: Step, t: nat)
    requires Inv(s) && t < |s.tasks| && s.tasks[t].Analysis?
    ensures t < |Apply(s, step).tasks| && Apply(s, step).tasks[t].Analysis?
    ensures var old_, new_ := s.tasks[t].analysis, Apply(s, step).tasks[t].analysis;
            && old_.repo == new_.repo && old_.connection == new_.connection
            && (old_.status.Completed? ==> new_ == old_)
            && (new_.status.Completed? && !old_.status.Completed? ==> Writes(s, step, t, new_))
  {
    if Target(step) == Some(t) {
      OwnMoves(s, step, t);
      var run, job := s.tasks[t].analysis, s.tasks[t].aJob;
      assert TaskInv(s.tasks[t], s.now);
      match step {
        case CompleteAnalysis(_, c, v, permitted) =>
          A.StoresOnlyUnderLease(run, job, c, v, s.now, false,
                                 permitted && C.Open(ConnAt(s, run.repo), run.connection));
        case _ =>
      }
    } else {
      OthersStay(s, step, t);
    }
  }

  /** A completed analysis: some step wrote its rows, and the run has not changed since. */
  lemma {:induction false} CompletedHasOneWriter(dailyLimit: nat, steps: seq<Step>, t: nat) returns (i: nat)
    requires t < |After(Initial(dailyLimit), steps).tasks|
    requires var task := After(Initial(dailyLimit), steps).tasks[t]; task.Analysis? && task.analysis.status.Completed?
    ensures i < |steps|
    ensures Writes(History(Initial(dailyLimit), steps)[i], steps[i], t,
                   After(Initial(dailyLimit), steps).tasks[t].analysis)
    ensures forall j :: i < j <= |steps| ==>
              SameAnalysis(History(Initial(dailyLimit), steps)[j], After(Initial(dailyLimit), steps), t)
    decreases |steps|
  {
    var s := Initial(dailyLimit);
    var n := |steps| - 1;
    var h := History(s, steps);
    HistoryStep(s, steps, n);
    NewTasksArePending(h[n], steps[n], t);
    AnalysisStep(h[n], steps[n], t);
    if h[n].tasks[t].analysis.status.Completed? {
      i := CompletedHasOneWriter(dailyLimit, steps[..n], t);
    } else {
      i := n;
    }
  }

  predicate SameAnalysis(a: System, b: System, t: nat) {
    && t < |a.tasks| && t < |b.tasks| && a.tasks[t].Analysis? && b.tasks[t].Analysis?
    && a.tasks[t].analysis == b.tasks[t].analysis
  }

  lemma NewTasksArePending(s: System, step: Step, t: nat)
    requires Inv(s) && t < |Apply(s, step).tasks|
    ensures t < |s.tasks| || (Occupies(Apply(s, step).tasks[t]).Some? || Apply(s, step).tasks[t].Webhook?)
    ensures t < |s.tasks| ==> (Apply(s, step).tasks[t].Analysis? ==> s.tasks[t].Analysis?)
  {
    if t < |s.tasks| {
      TaskFollows(s, step, t);
    } else {
      match Target(step) {
        case None => ChangeKeeps(s, step);
        case Some(u) =>
      }
    }
  }

  // ---- Provider calls ----

  lemma ReviewStep(s: System, step: Step, t: nat)
    requires Inv(s) && t < |s.tasks| && s.tasks[t].Review?
    ensures t < |Apply(s, step).tasks| && Apply(s, step).tasks[t].Review?
    ensures var a, b := s.tasks[t].review, Apply(s, step).tasks[t].review;
            // a reservation is the work of the holder of the live lease of a running review, still open
            && (b.run.callAttempts != a.run.callAttempts ==>
                  && b.run.callAttempts == a.run.callAttempts + 1 && a.run.status.Running?
                  && step.ReserveReview? && step.permitted && step.p < |a.procs|
                  && J.Fenced(a.job, a.procs[step.p].claim, s.now, false)
                  && C.Open(ConnAt(s, a.run.repo), a.run.connection))
            // a call is sent only on a reservation of its own
            && (b.calls != a.calls ==> b.calls == a.calls + [s.now] && |a.calls| < a.run.callAttempts)
  {
    assert TaskInv(s.tasks[t], s.now);
    if Target(step) == Some(t) {
      OwnMoves(s, step, t);
    } else {
      OthersStay(s, step, t);
    }
  }

  lemma {:induction false} CallsWithinTwicePerReview(tasks: seq<Task>, w: nat, since: int, until: int, now: nat)
    requires forall i :: 0 <= i < |tasks| ==> TaskInv(tasks[i], now)
    ensures Calls(tasks, w, since, until) <= 2 * Born(tasks, w, since, until)
  {
    if tasks != [] {
      var n := |tasks| - 1;
      assert forall i :: 0 <= i < n ==> tasks[..n][i] == tasks[i];
      CallsWithinTwicePerReview(tasks[..n], w, since, until, now);
      assert TaskInv(tasks[n], now);
    }
  }

  /** The reviews a workspace starts in one UTC day make at most twice `ai_daily_limit` provider
      calls together, whenever they make them. */
  lemma DailyCallsAreBounded(dailyLimit: nat, steps: seq<Step>, w: nat, midnight: nat)
    requires midnight % DAY == 0
    ensures Calls(After(Initial(dailyLimit), steps).tasks, w, midnight, midnight + DAY) <= 2 * dailyLimit
  {
    var s := After(Initial(dailyLimit), steps);
    HistoryIsChain(Initial(dailyLimit), steps);
    LimitStays(History(Initial(dailyLimit), steps));
    CallsWithinTwicePerReview(s.tasks, w, midnight, midnight + DAY, s.now);
    assert BornOn(s.tasks, w, midnight) <= s.dailyLimit;
  }

  lemma {:induction false} LimitStays(h: seq<System>)
    requires Chain(h) && h != []
    ensures h[|h| - 1].dailyLimit == h[0].dailyLimit
    decreases |h|
  {
    if 1 < |h| {
      LimitStays(h[..|h| - 1]);
      assert Evolves(h[|h| - 2], h[|h| - 2 + 1]);
    }
  }

  // ---- A connection that was left ----

  lemma {:induction false} StaysPast(h: seq<System>, i: nat, j: nat, r: nat, g: nat)
    requires Chain(h) && i <= j < |h|
    requires r < |h[i].conns| && C.Past(h[i].conns[r], g)
    ensures r < |h[j].conns| && C.Past(h[j].conns[r], g)
    decreases j
  {
    if i < j {
      StaysPast(h, i, j - 1, r, g);
      assert Evolves(h[j - 1], h[j - 1 + 1]);
      C.MovesKeepPast(h[j - 1].conns[r], h[j].conns[r], g);
    }
  }

  /** Work accepted on connection `r` in generation `g`. */
  predicate BoundTo(t: Task, r: nat, g: nat) {
    match t
    case Analysis(_, run, _) => run.repo == r && run.connection == g
    case Review(_, review) => review.run.repo == r && review.run.connection == g
    case Sync(run, _) => run.repo == r && run.connection == g
    case Webhook(d, _) => d.event.PullRequest? && d.event.repo == r && d.event.connection == g
  }

  /** It stored something, reserved a provider call, or ended in success. */
  predicate TookEffect(a: Task, b: Task) {
    match (a, b)
    case (Analysis(_, x, _), Analysis(_, y, _)) =>
      x.files != y.files || x.findings != y.findings || (y.status.Completed? && !x.status.Completed?)
    case (Review(_, x), Review(_, y)) =>
      x.run.callAttempts != y.run.callAttempts || x.run.result != y.run.result
        || (y.run.status.Completed? && !x.run.status.Completed?)
    case (Sync(x, _), Sync(y, _)) =>
      x.pulls != y.pulls || x.etag != y.etag || x.next != y.next || (y.status.Completed? && !x.status.Completed?)
    case (Webhook(x, _), Webhook(y, _)) => y.status.Processed? && !x.status.Processed?
    case _ => true
  }

  lemma AnalysisCutOff(s: System, run: A.Row, job: J.Row, step: Step)
    requires A.Inv(run, job) && !C.Open(ConnAt(s, run.repo), run.connection)
    ensures var (run', _) := OnAnalysis(s, run, job, step);
            run'.files == run.files && run'.findings == run.findings
            && (run'.status.Completed? ==> run.status.Completed?)
  {}

  lemma ReviewCutOff(s: System, r: R.Task, step: Step)
    requires R.Inv(r, s.now) && !C.Open(ConnAt(s, r.run.repo), r.run.connection)
    ensures var r' := OnReview(s, r, step);
            && r'.run.callAttempts == r.run.callAttempts && r'.run.result == r.run.result
            && (r'.run.status.Completed? ==> r.run.status.Completed?)
  {}

  lemma SyncCutOff(s: System, run: S.Row, job: J.Row, step: Step)
    requires S.Inv(run, job) && !C.Open(ConnAt(s, run.repo), run.connection)
    ensures var (run', _) := OnSync(s, run, job, step);
            && run'.pulls == run.pulls && run'.etag == run.etag && run'.next == run.next
            && (run'.status.Completed? ==> run.status.Completed?)
  {}

  lemma DeliveryCutOff(s: System, d: D.Row, job: J.Row, step: Step, r: nat, g: nat)
    requires D.Inv(d, job) && d.event.PullRequest? && d.event.repo == r && d.event.connection == g
             && !C.Open(ConnAt(s, r), g)
    ensures var (d', _) := OnDelivery(s, d, job, step); d'.status.Processed? ==> d.status.Processed?
  {}

  /** Its own steps take no effect. */
  lemma ActCutOff(s: System, task: Task, step: Step, r: nat, g: nat)
    requires TaskInv(task, s.now) && BoundTo(task, r, g) && !C.Open(ConnAt(s, r), g)
    ensures !TookEffect(task, Act(s, task, step))
  {
    match task {
      case Analysis(_, run, job) => AnalysisCutOff(s, run, job, step);
      case Review(_, review) => ReviewCutOff(s, review, step);
      case Sync(run, job) => SyncCutOff(s, run, job, step);
      case Webhook(d, job) => DeliveryCutOff(s, d, job, step, r, g);
    }
  }

  lemma NoEffectOncePast(s: System, step: Step, t: nat, r: nat, g: nat)
    requires Inv(s) && t < |s.tasks| && r < |s.conns| && C.Past(s.conns[r], g) && BoundTo(s.tasks[t], r, g)
    ensures t < |Apply(s, step).tasks| && !TookEffect(s.tasks[t], Apply(s, step).tasks[t])
  {
    assert TaskInv(s.tasks[t], s.now);
    if Target(step) == Some(t) {
      OwnMoves(s, step, t);
      ActCutOff(s, s.tasks[t], step, r, g);
    } else {
      OthersStay(s, step, t);
    }
  }

  /** Once a connection has left ACTIVE in generation `g`, nothing accepted in `g` stores results,
      reserves a provider call or ends in success ever again, even after the connection is back. */
  lemma LeavingAConnectionCutsOffItsWork(s: System, steps: seq<Step>, i: nat, j: nat, r: nat, g: nat, t: nat)
    requires Inv(s) && i < j < |steps|
    requires var h := History(s, steps);
             && r < |h[i].conns| && C.Open(h[i].conns[r], g)
             && r < |h[i + 1].conns| && !C.Open(h[i + 1].conns[r], g)
             && t < |h[j].tasks| && BoundTo(h[j].tasks[t], r, g)
    ensures t < |History(s, steps)[j + 1].tasks|
    ensures !TookEffect(History(s, steps)[j].tasks[t], History(s, steps)[j + 1].tasks[t])
  {
    var h := History(s, steps);
    HistoryIsChain(s, steps);
    assert Evolves(h[i], h[i + 1]);
    C.MovesKeepPast(h[i].conns[r], h[i + 1].conns[r], g);
    StaysPast(h, i + 1, j, r, g);
    HistoryStep(s, steps, j);
    NoEffectOncePast(h[j], steps[j], t, r, g);
  }
}
