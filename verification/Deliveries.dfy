/** Webhook deliveries: the fourth client of the job protocol (app/domain/webhook/service.py). */
module Deliveries {
  import opened Options
  import J = Jobs
  import C = Connections

  datatype Status = Pending | Processed | Failed | Canceled

  /** A pull_request event names a connection, its generation and the pull request; installation events
      name none. */
  datatype Event = PullRequest(repo: nat, connection: nat, number: nat) | Installation

  datatype Row = Row(event: Event, status: Status, processedAt: Option<int>, error: Option<J.Code>)

  /** What the transaction does beside the delivery and its job. */
  datatype Effect = Nothing | StartSync | SuspendTargets

  function Received(event: Event): Row { Row(event, Pending, None, None) }

  predicate Changed(row: Row, conn: C.Conn, permitted: bool) {
    row.event.PullRequest? && !(permitted && C.Open(conn, row.event.connection))
  }

  function Problem(row: Row, expired: bool, busy: bool): Option<J.Code> {
    if expired then Some(J.LeaseExpired)
    else if row.event.PullRequest? && busy then Some(J.SyncInProgress) else None
  }

  function Rejected(job: J.Row, now: int): J.Row
    requires job.history != []
  {
    var done := J.Finished(job, now, Some(J.ConnectionChanged), false, 5);
    var last := done.history[|done.history| - 1];
    done.(state := J.Canceled, history := done.history[..|done.history| - 1] + [last.(outcome := Some(J.Dropped))])
  }

  /** `execute`, the whole of it one transaction. */
  function Executed(row: Row, job: J.Row, conn: C.Conn, c: J.Claim, now: int, expired: bool, permitted: bool,
                    busy: bool): (Row, J.Row, Effect)
    requires J.Fenced(job, c, now, expired) ==> job.history != []
  {
    if !J.Fenced(job, c, now, expired) then (row, job, Nothing)
    else if Changed(row, conn, permitted) then
      (row.(status := Canceled, error := Some(J.ConnectionChanged), processedAt := Some(now)), Rejected(job, now),
       Nothing)
    else
      var code := Problem(row, expired, busy);
      var done := J.Finished(job, now, code, code.Some?, if code == Some(J.SyncInProgress) then 30 else 5);
      var again := done.state.Ready?;
      (row.(status := if again then Pending else if code.Some? then Failed else Processed, error := code,
            processedAt := if again then None else Some(now)),
       done,
       if code.Some? then Nothing else if row.event.PullRequest? then StartSync else SuspendTargets)
  }

  class Delivery {
    const event: Event
    var status: Status
    var processedAt: Option<int>
    var error: Option<J.Code>

    ghost function View(): Row
      reads this
    {
      Row(event, status, processedAt, error)
    }

    constructor (event: Event)
      ensures View() == Received(event)
    {
      this.event := event;
      status, processedAt, error := Pending, None, None;
    }

    method Execute(job: J.Job, conn: C.RepositoryConnection, c: J.Claim, now: int, expired: bool, permitted: bool,
                   busy: bool)
      returns (effect: Effect)
      requires J.Fenced(job.View(), c, now, expired) ==> job.history != []
      modifies this, job
      ensures (View(), job.View(), effect) ==
              Executed(old(View()), old(job.View()), conn.View(), c, now, expired, permitted, busy)
    {
      effect := Nothing;
      var held := job.Fence(c, now, expired);
      if !held {
        return;
      }
      if event.PullRequest? && !(permitted && conn.status == C.Active && conn.generation == event.connection) {
        Reject(job, now);
        return;
      }
      var code: Option<J.Code> := None;
      if expired {
        code := Some(J.LeaseExpired);
      } else if event.PullRequest? {
        if busy {
          code := Some(J.SyncInProgress);
        } else {
          effect := StartSync;
        }
      } else {
        effect := SuspendTargets;
      }
      var state := job.Finish(now, code, code.Some?, if code == Some(J.SyncInProgress) then 30 else 5);
      status := if state == J.Ready then Pending else if code.Some? then Failed else Processed;
      error := code;
      processedAt := if state == J.Ready then None else Some(now);
    }

    method Reject(job: J.Job, now: int)
      requires job.history != []
      modifies this, job
      ensures View() == old(View()).(status := Canceled, error := Some(J.ConnectionChanged), processedAt := Some(now))
      ensures job.View() == Rejected(old(job.View()), now)
    {
      var _ := job.Finish(now, Some(J.ConnectionChanged), false, 5);
      job.state := J.Canceled;
      var last := job.history[|job.history| - 1];
      job.history := job.history[..|job.history| - 1] + [last.(outcome := Some(J.Dropped))];
      status, error, processedAt := Canceled, Some(J.ConnectionChanged), Some(now);
    }
  }

  // ---- Delivery and job move together ----

  ghost predicate Inv(row: Row, job: J.Row) {
    && J.Valid(job)
    && (job.state.Succeeded? <==> row.status.Processed?)
    && (job.state.Dead? <==> row.status.Failed?)
    && (job.state.Canceled? <==> row.status.Canceled?)
    && (row.status.Pending? <==> row.processedAt.None?)
  }

  lemma ExecuteKeeps(row: Row, job: J.Row, conn: C.Conn, c: J.Claim, now: int, expired: bool, permitted: bool,
                     busy: bool)
    requires Inv(row, job)
    ensures var (row', job', effect) := Executed(row, job, conn, c, now, expired, permitted, busy);
            && Inv(row', job')
            && (effect != Nothing <==> row'.status.Processed? && !row.status.Processed?)
  {
    if J.Fenced(job, c, now, expired) {
      J.FinishKeepsValid(job, now, Some(J.ConnectionChanged), false, 5);
    }
  }
}
