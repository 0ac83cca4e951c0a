# Verified model of the review service

This project models the parts of the service whose correctness is not visible in any one function, and
proves what they promise, in Dafny. `dafny verify dfyconfig.toml` checks everything.

Operations that update objects or run loops are methods of classes and methods with loops, each proved
equal to a function on values; what is promised is then proved about those functions, as lemmas. Every
file holds the module of its name; hardest first:

- **Job protocol.** `Jobs`, `Connections`, `AnalysisRuns`, `ReviewRuns`, `SyncRuns` and `Deliveries` hold the
  rows and the transactions on them: lease, fence, finish, heartbeat, and the four workers and the cancels
  that pair a job with its run. `Protocol` makes every transaction one step of a system that any number of
  workers, stalled or crashed, may take in any order, together with clock ticks and connection changes.
  `Guarantees` states what holds over all runs from the empty system.
- **Static projection.** `PythonSubset` gives an unbounded reference semantics of the supported Python
  (sections 4.2, 6.2.1, 6.2.9, 6.3.4, 6.10, 6.11 and 8.7 of the Python Language Reference 3.12) and
  `ReferenceLaws` its laws; `Projecting` specifies the bounded evaluator and `Evaluator` is its code;
  `Soundness` and `Observations` prove that what it answers is what Python does, `Stability` that limits
  never change an answer, and `Counterexamples` where it is wrong.
- **Context packing.** `Packing` is trial insertion with rollback on heap objects, `PackingLaws` what it keeps
  for any chunks and any byte-size function, `ContextSelection` which files it may extend and in which order
  it is called. `ContextPlan` is the fair merge that orders the chunks and `Standards` the fail-closed
  greedy selection.
- **Refresh-token families.** `RefreshFamilies`: rotation with reuse detection (section 4.14.2 of RFC 9700).
- **Patches and findings.** `Patch` proves the validator of unified diffs (POSIX.1-2017, `diff`) against a
  grammar and against the second reader of patches, whose rows (`SourceRows`) packing extends; `Findings`
  and `Reports` follow the provider's findings through verification, validation and the merge with
  computed ones.
- **Smaller machines.** `NestingWalk` (explicit-stack walk against recursion, capped list of findings) and
  `Workspaces` (ownership and invitations).

## Where the code does less than it seems to

Four properties do not hold of the code as it stands. The model keeps the code, has the failing inputs,
and proves when the properties hold.

- **An observed verdict is Python's.** Take a file that can be trusted (`Soundness.Trusted`, `Soundness.Fair`)
  and loads (`Soundness.Loads`), the module in the state it has where the assertion stands, no default of the
  file with a list or dict as its value, and an assertion that no class around it spells differently. Then the
  reported verdict is the one Python reaches there, if and only if the called name is not a local one
  (`Observations.ObservationIsPythonsVerdict`). A file can be trusted when no function is named like a
  builtin, none is a generator or declares a name of an outer scope, none makes a builtin or a file function
  its own - as a parameter, a type parameter or by binding it - and `range(...)` occurs only inside
  `list(...)` or `len(...)`. `Counterexamples` has families of files on which the answer is wrong:
  `ShadowedBuiltin` (right if and only if the two agree), `LocalBeforeAssignment`,
  `TypeParameterTakenForTheFunction`, `GeneratorTakenForAValue`, `RangeIsNotAList`, and `NeverLoads` for a file
  that parses and does not load; and, with file and load as they should be, `ParameterTakenForTheFunction`,
  `ListDefaultMadeAgain` (right if and only if the default is still empty) and
  `PrivateNameTakenForTheFunction`. A function that declares a name of an outer scope has no value in the
  reference semantics and no family. In `DefaultsRunAgain` the value is right and the reported lines are not.
- **The two patch readers agree** if and only if no hunk that starts at line 0 adds a line
  (`Patch.ReadersAgree`); `Patch.StartZeroDisagrees` is the smallest patch on which they differ.
- **Packing keeps the rows of a file it extends.** Such a file shows only lines of its pinned source, and
  keeps them, changed rows included, if and only if no line of it is both changed and unchanged
  (`PackingLaws.GrownKeepsRows`). `PackingLaws.ChangedRowLost` is a patch whose changed row is lost;
  `Patch.OrderedIsConsistent` shows that patches whose hunks are in order lose none. Where paths repeat, the
  files that are extended show only such lines if and only if the last file of every path with a usable file
  is usable (`ContextSelection.RowsPinnedExactly`); `ContextSelection.TwinIsExtended` has two files of which
  the one lets the path through and the other is extended.
- **A derived finding owns its anchor.** One that had room owns it in the end if and only if no later one was
  derived there (`Reports.GroundedOwnsItsAnchor`), and all have anchors of their own if and only if no two
  on one line number are in files of one path (`Reports.DerivedAreAnchored`). `Reports.OnePathTwice` is a
  bundle, as it comes from a change list that names a file twice, with two contradicted assertions: both
  findings are derived and counted as added, and one is not in the report.

## Model

| member | source | states |
|---|---|---|
| Jobs.Job.Enqueue | app/shared/jobs/store.py:22-31 | A new job is READY, with three attempts, no lease and an empty history. |
| Jobs.Job.Lease | app/shared/jobs/store.py:34-64 | Claiming a due READY job bumps attempts and generation together, leases it for 60 seconds to the worker and opens one history entry; the returned claim names that generation. |
| Jobs.Job.Fence | app/shared/jobs/store.py:67-80 | A holder passes only while LEASED in its generation under its name and before expiry; a recovery passes only after expiry. |
| Jobs.Job.Finish | app/shared/jobs/store.py:97-114 | Success, requeue with back-off while attempts are left, or DEAD; the last history entry is closed and the lease cleared. |
| Jobs.Job.Heartbeat | app/shared/jobs/store.py:117-122 | Extends the lease exactly when the fence passes, and changes nothing else. |
| Jobs.ClaimKeepsValid | app/shared/jobs/models.py:36-52 | A claim keeps the attempts, lease and completed constraints and the history law, and its claim passes the fence. |
| Jobs.FinishKeepsValid | app/shared/jobs/store.py:97-114 | So does finishing a leased job, whichever way it ends. |
| Jobs.CancelKeepsValid | app/domain/analysis/service.py:190-219 | So does a cancel that closes the open history entry. |
| Jobs.BudgetStrictlyDecreases | app/shared/jobs/store.py:34-114 | A measure of at most twice max_attempts falls on each claim, finish and cancel and is untouched by heartbeats. |
| Connections.RepositoryConnection.Connect | app/domain/repository/service.py:46-103 | Refused unless the connection is DISCONNECTED; then it becomes ACTIVE in the next generation. |
| Connections.RepositoryConnection.Disconnect | app/domain/repository/service.py:122-126 | The connection becomes DISCONNECTED; its generation stays. |
| Connections.RepositoryConnection.Suspend | app/domain/repository/events.py:56-60 | Suspends only an ACTIVE connection; the generation stays. |
| Connections.MovesKeepPast | app/domain/repository/events.py:25-35 | No move of a connection makes a generation current again once it was left. |
| AnalysisRuns.AnalysisRun.Begin | app/domain/analysis/worker.py:39-57 | PENDING becomes RUNNING only for the holder of the live lease, with permission, an open connection and an unchanged snapshot. |
| AnalysisRuns.AnalysisRun.Complete | app/domain/analysis/worker.py:88-147 | Run and job end together under the fence; a result is stored only when the run is still open and authorized. |
| AnalysisRuns.AnalysisRun.Cancel | app/domain/analysis/service.py:190-219 | Cancels an unfinished run and its job together; anything else is untouched. |
| AnalysisRuns.ConcludeKeeps | app/domain/analysis/worker.py:88-147 | Every completion and every expiry recovery keeps run and job in lockstep and rows only on COMPLETED runs. |
| AnalysisRuns.StoresOnlyUnderLease | app/domain/analysis/worker.py:94-147 | Rows appear only as the whole result of a caller that passed the fence and was authorized; otherwise none are added. |
| AnalysisRuns.CountsPartition | app/domain/analysis/worker.py:104-124 | Included, excluded and failed files partition the files of a result. |
| AnalysisRuns.CompletedCountsAddUp | app/domain/analysis/worker.py:104-124 | The counts of a completed run add up to the rows it stored. |
| ReviewRuns.ReviewRun.Begin | app/domain/review/worker.py:60-95 | A review starts once, for the holder of the live lease of an open, authorized run. |
| ReviewRuns.ReviewRun.Reserve | app/domain/review/worker.py:255-270 | Counts a call only when the caller passes the fence, is still authorized and expects the current count. |
| ReviewRuns.ReviewRun.Recheck | app/domain/review/worker.py:245-253 | Allows going on exactly while the run is RUNNING under the fence and still authorized. |
| ReviewRuns.ReviewRun.Complete | app/domain/review/worker.py:272-303 | Run and job end together; a result is kept only if still authorized; a failed run with calls made is marked uncertain; never requeued. |
| ReviewRuns.ReviewRun.Cancel | app/domain/review/service.py:180-207 | Cancels an unfinished review and its job together. |
| ReviewRuns.ReserveKeeps | app/domain/review/worker.py:255-270 | One more reservation, recorded with the live lease and the open connection it was taken under; at most two. |
| ReviewRuns.SendKeeps | app/domain/review/worker.py:171-211 | A provider call is made only after a reservation of its own. |
| ReviewRuns.CompleteKeeps | app/domain/review/worker.py:272-303 | Completing keeps lockstep, and a completed review has made exactly two calls. |
| ReviewRuns.RecoverKeeps | app/domain/review/worker.py:272-303 | So does recovery after expiry. |
| SyncRuns.SyncRun.Begin | app/domain/pull_request/service.py:69-90 | Starts a sync under the fence, with access on the generation it was accepted in. |
| SyncRuns.SyncRun.Complete | app/domain/pull_request/service.py:120-185 | Under the fence and with access still given: the pulls, their number, the ETag, the time of success on run and connection, and the next page exactly after a full page of a list, kept when nothing was modified; run and job end or requeue together; lost access suspends the connection. |
| SyncRuns.AcceptKeeps | app/domain/pull_request/service.py:35-50 | A new run starts from the ETag and cursor of the last one completed for the same request, and that cursor names the page after the one asked for. |
| SyncRuns.ConcludeKeeps | app/domain/pull_request/service.py:120-185 | Keeps run and job in lockstep, pulls only on completed runs, cursors that name the following page, and the connection in its generation; the connection is dated exactly when a run completes, with the time the run has. |
| Deliveries.Delivery.Execute | app/domain/webhook/service.py:49-116 | In one transaction: fence, then processed, requeued, failed or cancelled, delivery and job together. |
| Deliveries.ExecuteKeeps | app/domain/webhook/service.py:49-116 | Keeps delivery and job in lockstep; it has an effect exactly when the delivery becomes PROCESSED. |
| Protocol.StepKeeps | app/shared/jobs/runner.py:16-55 | Every step of every worker, service, clock and connection keeps: lockstep of all pairs, one active run per pull request, workspace and repository, and the daily limit. |
| Protocol.CachedFollows | app/domain/pull_request/repository.py:137-153 | The run whose ETag and cursor are taken over has the same request, and a cursor for it. |
| Protocol.AdmitKeeps | app/domain/review/service.py:112-153 | Admission keeps one active run per key and the number of reviews of a UTC day within the limit. |
| Guarantees.EveryTask | app/shared/jobs/store.py:34-122 | In every reachable state each job is valid and in lockstep with its run, results are there exactly for completed analyses, a review is claimed at most once, calls <= reservations <= 2 and each call follows a reservation taken under a live lease on an open connection. |
| Guarantees.OneActiveEach | app/domain/review/service.py:112-128 | In every reachable state at most one active review per workspace, analysis per pull request and sync per repository, and at most the daily limit of reviews per UTC day. |
| Guarantees.LeaseClosedOnce | app/shared/jobs/store.py:67-114 | In any run, a lease generation that a step closed is never closed again. |
| Guarantees.OnlyTheEntitledClose | app/shared/jobs/store.py:67-114 | A lease is closed only by its holder while it is live, by recovery once it expired, or by a permitted cancel. |
| Guarantees.JobStepsAreBounded | app/shared/jobs/store.py:34-114 | In any run a job is claimed at most max_attempts times and changes state at most twice that often. |
| Guarantees.CompletedHasOneWriter | app/domain/analysis/worker.py:88-147 | A completed analysis has one writing step: its rows are the whole result of the holder of the live lease on the open connection, and the run is unchanged from then on. |
| Guarantees.AnalysisStep | app/domain/analysis/worker.py:39-147 | No step changes a completed analysis, and only a writing step completes one. |
| Guarantees.ReviewStep | app/domain/review/worker.py:171-270 | A reservation is always the permitted act of the holder of the live lease on the open connection, and a call is sent only while a reservation is unused. |
| Guarantees.DailyCallsAreBounded | app/domain/review/service.py:129-141 | The reviews a workspace starts in one UTC day make at most twice ai_daily_limit provider calls together. |
| Guarantees.LeavingAConnectionCutsOffItsWork | app/domain/review/worker.py:289-303 | Once a connection left ACTIVE in a generation, nothing accepted in it stores a result, reserves a call or ends in success, even after reconnection. |
| Evaluator.Projection.Value | app/domain/review/path_observations.py:22-81 | The stateful evaluator answers and counts steps, branches and lines exactly as its specification. |
| Evaluator.Projection.Call | app/domain/review/path_observations.py:83-154 | The same for calls: the guards on the whole def, defaults, positional and keyword arguments, then the body. |
| Evaluator.Projection.Block | app/domain/review/path_observations.py:119-149 | The same for statement blocks. |
| Soundness.InterpretSound | app/domain/review/semantics.py:26-80 | What the expression interpreter answers is what Python evaluates, without executing a statement. |
| Soundness.SoundValue | app/domain/review/path_observations.py:22-81 | A projected value is the value of the unbounded reference semantics, and the recorded lines and branches are those executed. |
| Soundness.SoundCalled | app/domain/review/path_observations.py:83-154 | The same for a call: arguments, keywords and defaults bind as in Python, and the body - of no generator, in a trusted file - runs to the same value over the same lines. |
| Soundness.BindingAgrees | app/domain/review/path_observations.py:109-117 | Defaults overlaid by positional and keyword arguments, when they cover the parameters, are the bindings Python makes. |
| Soundness.DefaultsKeepTheirValue | app/domain/review/path_observations.py:109-114 | Re-evaluating a default at the call gives the value it got at the def. |
| Stability.ValueStable | app/domain/review/path_observations.py:22-25 | Raising the step or depth limit never changes an answer. |
| Stability.CalledStable | app/domain/review/path_observations.py:83-85 | Nor that of a call. |
| Counterexamples.ShadowedBuiltin | app/domain/review/path_observations.py:80-81 | A file function named like a builtin: the nested answer is right if and only if the two agree. |
| Counterexamples.LocalBeforeAssignment | app/domain/review/path_observations.py:70-78 | A local assigned later with the name of a file function: an answer where Python has none, for all constants. |
| Counterexamples.RangeIsNotAList | app/domain/review/semantics.py:69-73 | A returned range is answered as a list, which never equals what Python returns. |
| Counterexamples.DefaultsRunAgain | app/domain/review/path_observations.py:109-114 | A default that calls a file function: right value, but a line is reported as executed that the call did not execute. |
| Counterexamples.GeneratorTakenForAValue | app/domain/review/path_observations.py:119-149 | `def f(): return c` and then `yield`: the match is reported, and Python finds the assertion false, for all constants. |
| Counterexamples.ParameterTakenForTheFunction | app/domain/review/path_observations.py:183-226 | `def t(g): assert g() == c` beside `def g(): return c`: file and load are as they should be, the match is reported, and Python calls the parameter. |
| Counterexamples.TypeParameterTakenForTheFunction | app/domain/review/path_observations.py:70-78 | A type parameter with the name of a file function: an answer where Python has none. |
| Counterexamples.NeverLoads | app/domain/review/path_observations.py:162-181 | A file that parses and does not load is answered. |
| Observations.NothingBecomes | app/domain/review/path_observations.py:109-114 | A module without list or dict defaults is as it was loaded, whatever code has run that rebound nothing of it. |
| Counterexamples.ListDefaultMadeAgain | app/domain/review/path_observations.py:109-114 | `def f(x=[]): return x`, trusted, loaded and called by its own name: the match with `[]` is reported, and is Python's verdict if and only if the default is still empty where the assertion stands; after an append of any constant it is not. |
| Counterexamples.PrivateNameTakenForTheFunction | app/domain/review/path_observations.py:183-226 | A match is reported for a private name in the body of a class, where Python calls a name that nothing has. |
| Observations.ObserveAssertion | app/domain/review/path_observations.py:172-226 | What is observed of one assertion, or that nothing is; a repeated keyword is skipped. |
| Observations.ObservationIsPythonsVerdict | app/domain/review/path_observations.py:172-226 | On a trusted file that loads, in the state the module has where the assertion stands: the reported verdict is the one Python reaches there, with the reported lines and branches, if and only if the called name is not a local one, provided that no default has a list or dict as its value (or all are as loaded) and that no class spells the assertion differently. |
| Packing.Collector.constructor | app/domain/review/context_selection.py:141-141 | Starts from the payload files, with the last file of each path under its path. |
| Packing.Collector.AppendChunk | app/domain/review/context_selection.py:144-182 | Trial insertion on the heap objects: admitted whole, or item, list and maps exactly as before with a note. |
| Packing.Collector.Refresh | app/domain/review/context_selection.py:212-214 | Each anchor is rewritten from the provided lines. |
| ContextSelection.CheckSources | app/domain/review/context_selection.py:76-85 | The loop that finds the files that may be extended and notes the others, against its fold. |
| ContextSelection.RowsPinnedExactly | app/domain/review/context_selection.py:76-98 | Every file that can be extended shows only lines of its source if and only if, for each path with a usable file, the last file of that path is usable. |
| ContextSelection.PinnedExactly | app/domain/review/context_selection.py:76-98 | They keep all rows if and only if, besides, no line of such a last file is both changed and unchanged. |
| ContextSelection.CheckedArePinned | app/domain/review/context_selection.py:76-98 | With one file to a path, exactly the files whose rows are lines of their pinned source can be extended, and packing keeps all rows of them if and only if no line is both changed and unchanged. |
| ContextSelection.TwinIsExtended | app/domain/review/context_selection.py:77-98 | With two files of one path, one safe and the other not, the path passes and the other is extended. |
| ContextSelection.Collect | app/domain/review/context_selection.py:186-214 | Protected chunks, then those of the queries, then the rest, each kind in the prioritized order, then the anchors. |
| ContextSelection.OrdersStayInPool | app/domain/review/context_selection.py:100-123 | Orders over the pool give a prioritized order over the pool. |
| ContextSelection.RankingCannotCostProtected | app/domain/review/context_plan.py:131-133 | Whatever the ranking, the protected chunks are tried first and in pool order; each stays if it is admitted against those before it alone, and protected_missing counts exactly the others. |
| ContextSelection.CollectedBundle | app/domain/review/context_selection.py:76-214 | The whole selection on a prepared bundle under exactly that condition: all that packing promises, and protected_missing, for any pool, ranking and queries. |
| PackingLaws.AppendedKeeps | app/domain/review/context_selection.py:144-182 | One chunk keeps ids, budgets, the related limit and the anchors; it is provided whole or files, paths and anchors are untouched. |
| PackingLaws.PackedBundle | app/domain/review/context_selection.py:186-214 | For any chunks and any byte sizes, when files that can be extended show pinned lines with agreeing flags: within both budgets, at most four related files, numbered ids, original rows kept, other rows pinned source lines, anchors equal to the provided lines. |
| PackingLaws.AdmittedStay | app/domain/review/context_selection.py:163-182 | An admitted chunk is provided in the end, and protected_missing counts exactly the protected chunks not admitted. |
| PackingLaws.IdsAreUnique | app/domain/review/context_selection.py:153-154 | Numbered ids are unique. |
| PackingLaws.GrownKeepsRows | app/domain/review/context_selection.py:77-85 | Growing a file that shows pinned lines keeps all its rows if and only if no line is both changed and unchanged in it. |
| PackingLaws.ChangedRowLost | app/domain/review/context_selection.py:161-170 | The rows that `prepare` makes of a patch with one line changed and unchanged: growing the file loses the changed row. |
| PackingLaws.ChangedRowsAreOriginal | app/domain/review/context_selection.py:163-170 | The changed rows of a file are exactly those it came with. |
| PackingLaws.RefreshIsIdle | app/domain/review/context_selection.py:212-214 | Rewriting the anchors at the end changes nothing. |
| Patch.ChangedLines | app/domain/analysis/pipeline.py:52-93 | The validating loop, against its step function. |
| Patch.AcceptsTheGrammar | app/domain/analysis/pipeline.py:52-93 | Accepted if and only if the lines are one or more complete hunks with these totals; the answer is the new-side positions of the additions. |
| Patch.RenderedIsAccepted | app/domain/analysis/pipeline.py:52-93 | Rendering a hunk list and validating it recovers its additions. |
| Patch.ReadRender | app/domain/analysis/pipeline.py:60-84 | A line list has at most one reading as hunks. |
| Patch.PrepareRows | app/domain/review/policy.py:98-106 | The row-marking loop, against its fold. |
| Patch.RowsOfHunks | app/domain/review/policy.py:98-106 | The prepared rows of a patch are the new sides of its hunks; removed lines leave none. |
| Patch.ReadersAgree | app/domain/review/policy.py:98-106 | The rows marked changed are one for one the additions counted, if and only if no hunk starting at line 0 adds a line. |
| Patch.AcceptedIsMarked | app/domain/analysis/pipeline.py:85-93 | For an accepted patch with starts of at least 1 the marked lines are the validated set, as many as the additions. |
| Patch.StartZeroDisagrees | app/domain/review/policy.py:104-104 | A hunk starting at line 0 with an addition on which the two readers differ. |
| Patch.RowsAscend | app/domain/review/policy.py:98-106 | For hunks in order the prepared rows are distinct and ascending. |
| Patch.OrderedIsConsistent | app/domain/review/policy.py:98-106 | For hunks in order no line is prepared twice, so that packing keeps all rows. |
| RefreshFamilies.AuthService.Callback | app/domain/auth/service.py:59-72 | A login opens a new family with one token and seven days. |
| RefreshFamilies.AuthService.Refresh | app/domain/auth/service.py:74-104 | Rotates a usable token to one successor with the same expiry; a spent one revokes its family and fails. |
| RefreshFamilies.AuthService.Logout | app/domain/auth/service.py:106-115 | Revokes the whole family of a known token. |
| RefreshFamilies.AuthService.RevokeFamily | app/domain/auth/repository.py:44-52 | Marks every unrevoked session of the family and no other. |
| RefreshFamilies.AlwaysChained | app/domain/auth/service.py:74-115 | In every reachable state a family is one chain through replaced_by_id with a single unrotated end, one user, one expiry, revoked all or none. |
| RefreshFamilies.OneUsablePerFamily | app/domain/auth/service.py:83-85 | At any moment at most one token of a family would be accepted. |
| RefreshFamilies.ExchangedOnce | app/domain/auth/service.py:83-97 | A token is exchanged at most once in any run. |
| RefreshFamilies.KilledForGood | app/domain/auth/repository.py:44-52 | After reuse or logout the family stays revoked, and none of its tokens is ever exchanged. |
| RefreshFamilies.SecondUseEndsTheFamily | app/domain/auth/service.py:83-84 | A token presented twice, by whomever, leaves its family revoked for good. |
| RefreshFamilies.NoExchangeAfterExpiry | app/domain/auth/service.py:85-95 | Rotation never prolongs a family beyond the expiry set at login. |
| ContextPlan.Prioritize | app/domain/review/context_plan.py:131-138 | The round-robin loop, against its fold. |
| ContextPlan.PrioritizedCovers | app/domain/review/context_plan.py:131-138 | Exactly the protected and the ordered items, each once, the protected ones first and in order. |
| ContextPlan.PrioritizedIsFair | app/domain/review/context_plan.py:131-138 | Entry j of order g stands at most at P + j*G + g. |
| ContextPlan.PoolFor | app/domain/review/context_plan.py:115-128 | The two merging rounds, against their fold. |
| ContextPlan.PoolIsFair | app/domain/review/context_plan.py:115-128 | At most 24 keys, the first to arrive, none twice, each with the groups of all its duplicates; when a protected one is refused only protected ones are in. |
| Standards.Retrieve | app/domain/standards/index.py:162-177 | The selection loop, against its fold. |
| Standards.SelectionLaw | app/domain/standards/index.py:162-184 | Raises if and only if the required sections alone exceed the cap; otherwise all of them in front, in key order, within the cap, and whatever was left out was ineligible, beyond twelve, or would not fit even now. |
| Findings.ApplyVerification | app/domain/review/verification.py:60-128 | Applies the decisions in index order, then appends the new findings that repeat no cause. |
| Findings.SortedByPosition | app/domain/review/verification.py:68-75 | Decisions that cover the draft name each finding exactly once. |
| Findings.VerificationAccounts | app/domain/review/verification.py:72-117 | Kept, revised and dropped add up to the draft; those left keep draft order, place and uncertainty, with the checked consequence; then only causes not yet there; ten at most. |
| Findings.TalliedIffFitting | app/domain/review/verification.py:72-105 | Complete decisions are tallied if and only if each fits its finding, in whatever order they came. |
| Findings.VerificationAccepts | app/domain/review/verification.py:68-116 | Accepted if and only if the decisions name each draft finding once, each fits its finding by the rules for its action, and the findings not dropped and the new causes are ten at most. |
| Reports.ValidateResult | app/domain/review/policy.py:191-279 | Accepts exactly replies whose findings are all admissible, and splits them by basis. |
| Reports.ValidatedPartitions | app/domain/review/policy.py:200-266 | Every finding is in exactly one list: issues supported without assumptions, questions with some and never an error, all at provided lines. |
| Reports.DeriveFindings | app/domain/review/grounded_claims.py:34-90 | The derivation loops, against their fold. |
| Reports.DerivedAreWellPlaced | app/domain/review/grounded_claims.py:42-57 | At most four derived findings, no two at one place, each on a changed line of its file. |
| Reports.DerivedAreValid | app/domain/review/grounded_claims.py:91-103 | What is derived always passes the validation of provider findings. |
| Reports.Ground | app/domain/review/grounded_claims.py:104-123 | The merge loop, against its fold, with the numbers added and omitted. |
| Reports.DerivedAreAnchored | app/domain/review/grounded_claims.py:42-57 | Derived findings have anchors of their own if and only if no two on one line number are in files of one path. |
| Reports.GroundedOwnsItsAnchor | app/domain/review/grounded_claims.py:105-121 | A derived finding that had room is in the end the only entry at its anchor if and only if it is the last one derived there. |
| Reports.OnePathTwice | app/domain/review/grounded_claims.py:35-123 | A bundle with one path twice and a contradicted assertion in each file: both findings are derived and counted as added, and only one is in the report. |
| Reports.GroundingKeepsTheCap | app/domain/review/grounded_claims.py:114-116 | The report stays within ten entries. |
| Reports.GroundingTouchesNothingElse | app/domain/review/grounded_claims.py:106-118 | Entries at other anchors stay. |
| NestingWalk.EvaluateNesting | app/domain/analysis/analyzer.py:243-268 | The explicit-stack walk visits in exact preorder and emits COM-003 for exactly the nodes that open the fifth level within the nearest function. |
| NestingWalk.VisitsAll | app/domain/analysis/analyzer.py:243-268 | The walk visits every node once. |
| NestingWalk.Evaluation.Add | app/domain/analysis/analyzer.py:45-55 | Keeps the first hundred distinct findings in order and sets limit exactly when there are more. |
| NestingWalk.CappedGrows | app/domain/analysis/analyzer.py:45-55 | A listed finding keeps its place, none is listed twice, and all are listed if and only if there are at most a hundred. |
| Workspaces.Workspace.CreateInvitation | app/domain/workspace/service.py:75-92 | Who may invite whom, after expiring old invitations; a refusal leaves nothing. |
| Workspaces.Workspace.RevokeInvitation | app/domain/workspace/service.py:100-111 | Who may revoke which pending invitation. |
| Workspaces.Workspace.AcceptInvitation | app/domain/workspace/service.py:113-149 | Only its target, while pending, and only while the inviter could still grant the role. |
| Workspaces.Workspace.SetRole | app/domain/workspace/service.py:151-161 | Only the owner, and never on the owner. |
| Workspaces.Workspace.RemoveMember | app/domain/workspace/service.py:163-174 | Leaving or removing, never the owner, an admin only by the owner. |
| Workspaces.Workspace.TransferOwnership | app/domain/workspace/service.py:176-188 | The owner becomes admin and the target owner, in one transaction. |
| Workspaces.AlwaysOneOwner | app/domain/workspace/service.py:43-188 | After every commit exactly one active owner, and at most one pending invitation per target. |
| Workspaces.NeverTwoOwners | app/domain/workspace/service.py:185-187 | The state flushed halfway through a transfer has no owner, never two. |
| Workspaces.AdminsComeFromTheOwner | app/domain/workspace/service.py:75-188 | Whoever becomes admin does so on the authority of the owner of that moment. |
| Workspaces.AcceptedOnce | app/domain/workspace/service.py:113-148 | An invitation is accepted at most once, by the user it was sent to. |

## Left out

- Observations.ObservationIsPythonsVerdict: outside its conditions nothing is stated of the single answer, which may be right by chance, as `Counterexamples.ShadowedBuiltin` and `Counterexamples.ListDefaultMadeAgain` show, or because the default is not used. Code that ran before the assertion may have changed lists and dicts in place; that it rebound a name of the module or of the builtins, replaced defaults or code of a function by reflection, or gave a local name of the test function a function of the file, is not modelled.
- Observations.ObserveAssertion: one assertion; the limit of six observations, their sorting by verdict, the size limits of the file and the Java observations are not modelled.
- Evaluator.Projection.Block: chained assignments and chained comparisons are outside the subset, as in the code; the reference semantics gives no value where Python raises.
- Soundness.Loads: that the compiler accepts each `def` and that its annotations and decorators can be evaluated is a flag of the function; compilation is not modelled.
- Standards.Retrieve: the BM25 score is any real number per section, so floating-point rounding and tokenization are not modelled.
- ContextPlan.PoolFor: starts from the candidates of each query; how `candidates`, `around`, `queries` and `discover` choose lines and paths is not modelled.
- ContextSelection.Collect: pool, ranking and queries are given, each chunk inside a fetched source; fetching, notes on syntax, the time limit and the ranking report are not modelled, and JSON size is any function.
- Patch.ChangedLines: starts from classified lines; the header expression, `splitlines` and the limit on the length of the patch text are not modelled.
- Reports.ValidateResult: the checks on citations, quotes, blank text and suggestions are one arbitrary predicate; issue keys, summaries and coverage are not modelled.
- Findings.ApplyVerification: replies are taken as parsed and size-checked; findings are values, so that the program's updating of the parsed objects in place is a new value here; file checks are not modelled.
- Protocol.StepKeeps: each transaction reads one clock instant and is atomic under its locks; deadlock freedom, SQL isolation and the skew between the database's and the program's clock at midnight are not modelled. A claim names the job it takes, so the order of the queue and skipping locked rows are left open.
- Protocol.AdmitKeeps: permission, consent and snapshot checks are one arbitrary flag, and reruns, execution keys and the return of an existing run are not modelled.
- SyncRuns.SyncRun.Complete: a pull request is a number; what is written of one, and which of two completed runs with one finishing time is the cached one, is not modelled.
- Deliveries.Delivery.Execute: which connections an installation event affects is an arbitrary set.
- AnalysisRuns.AnalysisRun.Complete: the history entry of a run cancelled at completion says FAILED while the job is CANCELED, as in the code; agreement of the two is not stated.
- RefreshFamilies.AuthService.Callback: the exchange with GitHub, login attempts, hashing and access tokens are not modelled; identifiers drawn at random are taken to be fresh.
- Workspaces.Workspace.AcceptInvitation: one workspace, and a user's GitHub identity is the user; names, views and the listing of members are not modelled.
- NestingWalk.EvaluateNesting: the syntax tree is given, with node types grouped as the rule groups them; the other rules, parsing and secret scanning are not modelled.
- Prompts, the language model, HTTP, routers, settings, migrations, evaluation tooling and deployment are not modelled: they are input and output, or would add only easy members.
