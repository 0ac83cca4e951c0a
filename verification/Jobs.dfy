/** The durable job queue (app/shared/jobs/store.py): one row per job, leased to one worker at a
    time. A claim opens a new lease generation; every later transaction of that worker is admitted
    only by the fence, which compares state, generation, worker name and the expiry of the lease.

    `Row` is the value of a job row and the functions on it are the specification; class `Job` is
    the row object the program updates in place. */
module Jobs {
  import opened Options

  type Worker = nat

  const LEASE_SECONDS := 60
  const MAX_ATTEMPTS := 3

  /** Error codes; the ones the program tests for are named. */
  datatype Code =
    | AccessRevoked | AnalysisCanceled | ConnectionChanged | UserCanceled | LeaseExpired
    | SyncInProgress | GitHubAccessUnavailable | OtherCode(n: nat)

  datatype State = Ready | Leased | Succeeded | Dead | Canceled

  datatype Outcome = Retried | Failed | Success | Dropped

  datatype Attempt = Attempt(number: nat, generation: nat, startedAt: int,
                             finishedAt: Option<int>, outcome: Option<Outcome>, error: Option<Code>)

  datatype Row = Row(state: State, attempts: nat, maxAttempts: nat, availableAt: int,
                     leaseUntil: Option<int>, generation: nat, claimedBy: Option<Worker>,
                     completedAt: Option<int>, error: Option<Code>, history: seq<Attempt>)

  /** What a worker carries between its transactions. */
  datatype Claim = Claim(generation: nat, worker: Worker)

  predicate Terminal(s: State) { s.Succeeded? || s.Dead? || s.Canceled? }

  // ---- Specification of the operations ----

  function Enqueued(now: int): Row {
    Row(Ready, 0, MAX_ATTEMPTS, now, None, 0, None, None, None, [])
  }

  predicate Claimable(r: Row, now: int) { r.state.Ready? && r.availableAt <= now }

  function Claimed(r: Row, worker: Worker, now: int): Row {
    r.(state := Leased, attempts := r.attempts + 1, generation := r.generation + 1,
       claimedBy := Some(worker), leaseUntil := Some(now + LEASE_SECONDS),
       history := r.history + [Attempt(r.attempts + 1, r.generation + 1, now, None, None, None)])
  }

  /** The fence: `c` still holds the lease, live (`expired` false) or run out (`expired` true). */
  predicate Fenced(r: Row, c: Claim, now: int, expired: bool) {
    && r.state.Leased? && r.generation == c.generation && r.claimedBy == Some(c.worker)
    && r.leaseUntil.Some? && (r.leaseUntil.value <= now) == expired
  }

  predicate Requeues(r: Row, code: Option<Code>, retry: bool) {
    code.Some? && retry && r.attempts < r.maxAttempts
  }

  function Closed(history: seq<Attempt>, now: int, outcome: Outcome, code: Option<Code>): seq<Attempt>
    requires history != []
  {
    var last := history[|history| - 1];
    history[|history| - 1 := last.(finishedAt := Some(now), outcome := Some(outcome), error := code)]
  }

  function Backoff(r: Row, delay: int): int {
    var floor := if r.attempts == 1 then 5 else 30;
    if delay < floor then floor else delay
  }

  function Finished(r: Row, now: int, code: Option<Code>, retry: bool, delay: int): Row
    requires r.history != []
  {
    var again := Requeues(r, code, retry);
    r.(state := if again then Ready else if code.Some? then Dead else Succeeded,
       error := code, leaseUntil := None, claimedBy := None,
       completedAt := if again then None else Some(now),
       availableAt := if again then now + Backoff(r, delay) else r.availableAt,
       history := Closed(r.history, now,
                         if again then Retried else if code.Some? then Failed else Success, code))
  }

  function Renewed(r: Row, now: int): Row { r.(leaseUntil := Some(now + LEASE_SECONDS)) }

  /** A user's cancel; `touch` says whether the last attempt is rewritten. */
  function Cancelled(r: Row, now: int, touch: bool): Row
    requires touch ==> r.history != []
  {
    r.(state := Canceled, completedAt := Some(now), leaseUntil := None, claimedBy := None,
       error := Some(UserCanceled),
       history := if touch then Closed(r.history, now, Dropped, Some(UserCanceled)) else r.history)
  }

  // ---- The row object ----

  class Job {
    var state: State
    var attempts: nat
    var maxAttempts: nat
    var availableAt: int
    var leaseUntil: Option<int>
    var generation: nat
    var claimedBy: Option<Worker>
    var completedAt: Option<int>
    var error: Option<Code>
    var history: seq<Attempt>

    ghost function View(): Row
      reads this
    {
      Row(state, attempts, maxAttempts, availableAt, leaseUntil, generation, claimedBy,
          completedAt, error, history)
    }

    constructor Enqueue(now: int)
      ensures View() == Enqueued(now)
    {
      state, attempts, maxAttempts, availableAt := Ready, 0, MAX_ATTEMPTS, now;
      leaseUntil, generation, claimedBy, completedAt := None, 0, None, None;
      error, history := None, [];
    }

    /** The body of `claim` once its query has returned this row. */
    method Lease(worker: Worker, now: int) returns (c: Claim)
      requires Claimable(View(), now)
      modifies this
      ensures View() == Claimed(old(View()), worker, now)
      ensures c == Claim(generation, worker) && Fenced(View(), c, now, false)
    {
      state := Leased;
      attempts := attempts + 1;
      generation := generation + 1;
      claimedBy := Some(worker);
      leaseUntil := Some(now + LEASE_SECONDS);
      history := history + [Attempt(attempts, generation, now, None, None, None)];
      c := Claim(generation, worker);
    }

    method Fence(c: Claim, now: int, expired: bool) returns (ok: bool)
      ensures ok == Fenced(View(), c, now, expired)
    {
      if state != Leased || generation != c.generation || claimedBy != Some(c.worker) || leaseUntil.None? {
        return false;
      }
      return (leaseUntil.value <= now) == expired;
    }

    method Finish(now: int, code: Option<Code>, retry: bool, delay: int) returns (s: State)
      requires history != []
      modifies this
      ensures View() == Finished(old(View()), now, code, retry, delay) && s == state
    {
      var again := code.Some? && retry && attempts < maxAttempts;
      state := if again then Ready else if code.Some? then Dead else Succeeded;
      error, leaseUntil, claimedBy := code, None, None;
      completedAt := if again then None else Some(now);
      if again {
        var floor := if attempts == 1 then 5 else 30;
        availableAt := now + (if delay < floor then floor else delay);
      }
      var last := history[|history| - 1].(finishedAt := Some(now), error := code,
                                          outcome := Some(if again then Retried
                                                          else if code.Some? then Failed else Success));
      history := history[|history| - 1 := last];
      s := state;
    }

    method Heartbeat(c: Claim, now: int) returns (ok: bool)
      modifies this
      ensures ok == Fenced(old(View()), c, now, false)
      ensures View() == if ok then Renewed(old(View()), now) else old(View())
    {
      ok := Fence(c, now, false);
      if ok {
        leaseUntil := Some(now + LEASE_SECONDS);
      }
    }

    /** The job half of both user cancels. */
    method Cancel(now: int, touch: bool)
      requires touch ==> history != []
      modifies this
      ensures View() == Cancelled(old(View()), now, touch)
    {
      if touch {
        var last := history[|history| - 1].(finishedAt := Some(now), error := Some(UserCanceled),
                                            outcome := Some(Dropped));
        history := history[|history| - 1 := last];
      }
      state, completedAt, leaseUntil, claimedBy := Canceled, Some(now), None, None;
      error := Some(UserCanceled);
    }
  }

  // ---- What every row satisfies ----

  /** The CHECK constraints of the table (attempts, lease, completed), and what they leave unsaid:
      the counters equal the length of the history, a ready job has an attempt left, and the only
      unfinished attempt is the last one, exactly while the job is leased. */
  ghost predicate Valid(r: Row) {
    && 0 < r.maxAttempts && r.attempts <= r.maxAttempts
    && r.attempts == r.generation == |r.history|
    && (r.state.Ready? ==> r.attempts < r.maxAttempts)
    && (r.state.Leased? <==> r.leaseUntil.Some?) && (r.state.Leased? <==> r.claimedBy.Some?)
    && (Terminal(r.state) <==> r.completedAt.Some?)
    && (r.state.Leased? ==> r.history != [])
    && forall i :: 0 <= i < |r.history| ==>
         && r.history[i].generation == r.history[i].number == i + 1
         && (r.history[i].finishedAt.None? <==> r.history[i].outcome.None?)
         && (r.history[i].finishedAt.None? <==> (i == |r.history| - 1 && r.state.Leased?))
  }

  lemma EnqueueValid(now: int)
    ensures Valid(Enqueued(now))
  {}

  lemma ClaimKeepsValid(r: Row, worker: Worker, now: int)
    requires Valid(r) && Claimable(r, now)
    ensures Valid(Claimed(r, worker, now))
    ensures Fenced(Claimed(r, worker, now), Claim(r.generation + 1, worker), now, false)
  {}

  lemma FinishKeepsValid(r: Row, now: int, code: Option<Code>, retry: bool, delay: int)
    requires Valid(r) && r.state.Leased?
    ensures Valid(Finished(r, now, code, retry, delay))
  {}

  lemma CancelKeepsValid(r: Row, now: int, touch: bool)
    requires Valid(r) && !Terminal(r.state)
    requires r.state.Leased? ==> touch
    requires touch ==> r.history != []
    ensures Valid(Cancelled(r, now, touch))
  {}

  // ---- Budget of a job ----

  /** Claims, finishes and cancels a job still has in it. */
  function Remaining(r: Row): int {
    if Terminal(r.state) then 0
    else 2 * (r.maxAttempts - r.attempts) + (if r.state.Leased? then 1 else 0)
  }

  /** Every claim, finish and cancel uses up some of the budget, a heartbeat uses none; a new job
      has a budget of twice its attempts. */
  lemma BudgetStrictlyDecreases(r: Row, worker: Worker, now: int, code: Option<Code>, retry: bool, delay: int,
                                touch: bool)
    requires Valid(r)
    ensures 0 <= Remaining(r) <= 2 * r.maxAttempts
    ensures Claimable(r, now) ==> 0 <= Remaining(Claimed(r, worker, now)) < Remaining(r)
    ensures r.state.Leased? ==> 0 <= Remaining(Finished(r, now, code, retry, delay)) < Remaining(r)
    ensures !Terminal(r.state) && (touch ==> r.history != []) ==>
              0 == Remaining(Cancelled(r, now, touch)) < Remaining(r)
    ensures Remaining(Renewed(r, now)) == Remaining(r)
  {}

  /** How one transaction may move a job: generations only grow, a lease once closed is not reopened
      in its generation, an ended job stays as it is, and every change of state costs budget. */
  ghost predicate Advances(a: Row, b: Row) {
    && a.maxAttempts == b.maxAttempts && a.generation <= b.generation
    && (a.generation == b.generation && b.state.Leased? ==> a.state.Leased?)
    && (Terminal(a.state) ==> b.state == a.state && b.generation == a.generation)
    && Remaining(b) <= Remaining(a) && (a.state != b.state ==> Remaining(b) < Remaining(a))
  }
}
