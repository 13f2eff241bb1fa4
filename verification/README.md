# Hermes orchestrator: verified model of the durable control plane

The orchestrator keeps tasks, runs, approvals, leases and a usage ledger in a relational database. Services
change them in short transactions; dispatchers claim runs and drive them on remote workers; a coordinator turns
ended runs into retries and successor tasks; deployments are promoted from local machines to prod-sim. This
project models those parts in Dafny and proves what they are meant to guarantee over whole histories.

Check everything with `dafny verify dfyconfig.toml`.

## How it is built

The tables are sequences of rows, an id is a row's index, and a service call is one transaction. Each service is
written twice. A specification function maps the tables before to the tables after together with the answer
(`Lifecycle`, `Controls`, `Workflow`, `Environments`, `AgentRequests`, `Timeline`, `UsageSummary`,
`EventStream`, `EventLog`). A class whose methods assign fields and loop over rows as the services do
(`ControlPlane.Session`, `Coordinator.WorkflowCoordinator`, `Dispatcher.RunDispatcher`,
`Environments.EnvironmentService`, `EventLog.EventTable`, `AgentRequests.AgentService`), or a method with the
service's loop, is proved to compute exactly that function. The theorems are then about the functions.

- **Lifecycle** (`Records`, `Limits`, `Controls`, `Lifecycle`, `ControlPlane`). One invariant covers links, keys,
  numbering, one active run per task, the caps, the ledger, the leases and cancelled tasks; every call keeps it
  except one kind of approval, which is characterised exactly (`Invariants`, `Preservation`, `Admission`,
  `Closing`, `Approvals`, `Histories`, `Endings`, `LateApproval`, `LapsedApproval`, `ClaimAudit`, `Identity`).
- **Calls, one by one** (`Gate`, `Moves`, `Effects`, `Leases`, `Bookings`, `Deciders`, `Reviews`,
  `RashApproval`). For each service: when it is granted, check by check, what it then leaves in every table, and
  what makes it be refused, stated on the rows; and what that means over histories for breakers, leases, the
  ledger, approvals and reviews.
- **Coordinator** (`Chains`, `Workflow`, `Coordinator`). A history interleaves commits of any number of
  coordinators, crashes between commits, replays and calls from outside. An explicit rank pays for every task,
  run, continuation and consumed event (`Ranking`, `Coordination`, `Termination`, `Passes`, `Rounds`, `Stalls`).
  `Directives` says what an ended run leads to, `Routes` to whom work may be handed on.
- **Dispatcher and worker** (`Dispatching`, `Dispatcher`, `Failures`, `EventStream`, `Frames`, `EventLog`). Any
  number of dispatchers claim, crash, lose leases and take over; the worker deduplicates on the idempotency key.
  A round of `RunOnce` is shown to be one succession of the actions whose interleavings the theorems are about.
- **Agent requests** (`AgentRequests`, `AgentAudit`, `Registrar`, `Fleet`, `FleetLimits`, `FleetRace`). A machine
  interleaves the evaluations, decisions, applications and enlistings of any number of policy coordinators and
  people.
- **Environments** (`Environments`, `Promotion`, `Releases`), **usage and circuits** (`UsageSummary`, `Circuits`,
  `Breakers`), **timeline** (`Cursors`, `Timeline`).

## What the code does that one might not expect

Each of these is proved as a theorem about the code as it is.

- `resolve_approval` looks only at the decision key. Approving a run that the watchdog has already timed out
  reopens it although its ledger entry exists (`LateApprovalReopensARun`), and a completion approval that lapsed
  before its task was cancelled still turns the task from cancelled into failed (`LapsedApprovalRestates`).
  `ResolveKeepsInvExactly` says when a decision is safe; the history theorems assume it of every decision
  (`Histories.Guarded`), and `PendingDecisionsAreSafe` gives a guard that suffices.
- `handoff_task` asks for a new completion approval each time, and `resolve_approval` restates the task whatever
  else waits. A reviewed task whose run was handed over twice is completed by granting the newer approval, with
  the other still pending (`RashIsReachable`). `CallsHoldReviews` and `ReviewsAreNotSkippedExactly` say exactly
  when that happens; the reviewer has approved some run of the task all the same (`DeliveriesAreReviewed`).
- `_discover` reads the same oldest events again on every pass. An event behind four batches of older ones is
  never discovered (`LateEventsAreNeverDiscovered`, reached in `OverlookedIsReachable`). A result that must go
  to a parent task that names no agent ends every round before anything is processed, for ever
  (`OrphansRaiseExactly`, `OrphansStopTheRound`, `OrphansStayStuck`, reached in `OrphanIsReachable`).
- `resolve_limits` reads zero as unset, so a budget row with a zero window widens the window again
  (`WindowGrowsExactlyAtZero`); every other field can only get tighter.
- A failure without an error code is stored under its status and never matches the next one, so however many of
  them follow each other, they count as one, unless the breaker remembers no code; `CodelessCount` and
  `CodelessOpens` say exactly when they open a circuit.
- The event reader takes a clean end of the connection for the end of a frame. It invents an event
  (`CleanCloseInvents`) exactly if the connection closed in a data line past its colon and what arrived decodes
  differently (`CleanCloseExactly`).
- Persistence deduplicates only events with an id (`RepeatsNeedIds`), submissions only those with a key, which
  `execute_run_via_hermes` does not send (`RepeatsAreHarmlessWithKeysOnly`).
- A policy coordinator evaluates, decides, records and enlists in separate transactions. Coordinators that
  overlap take the fleet over its limit (`OverlapIsReachable`); the limits hold exactly while every agent finds
  room as it is enlisted (`LimitsHoldExactly`, `RoomExactly`, `LastPlaceExactly`).
- A crash between recording and enlisting is the only thing that strands an applied request without an agent
  (`CrashStrandsExactly`), and nothing but its retirement or another request of its name helps
  (`StrandedStays`).
- The timeline reads at most five hundred events of each source; older ones are on no page, and all others are
  (`OldEventsAreUnreachable`, `PagesShowExactly`).
- A refused lease release while an error is handled, like a refused move, leaves the dispatcher's round
  unhandled (`HandleError`).

## Assumptions

- Commits are serializable: a transaction is one step. Time is an integer, and where a theorem needs a clock
  that never runs backwards it says so (`Leases.Ordered`).
- Hashes are injective: the hashed payload itself is stored and compared. Ids are row indices, and rows are in
  order of creation. Keys derived by the system (`workflow-task:`, `workflow-dispatch:`, `cancel:`) differ from
  each other and from those of clients.
- The worker keeps one run per idempotency key. In the stream theorems each connection replays a contiguous
  stretch of the worker's log, whose events have pairwise different fingerprints, from no later than the
  position the reader acknowledged.
- Environment policy, settings and agent limits are constant over a history. Budgets, project settings and agent
  directories are given anew with every call.
- What the outside answers (worker states and errors, credential resolution, provisioner results, run artifacts,
  candidate remote ids, rows locked by others) is a parameter.

## Model

| member | source | states |
|---|---|---|
| Limits.ResolveLimits | src/hermes_orchestrator/usage_services.py:248-290 | The nested loops over budget rows and fields return `LimitsFor`: per field the value the following lemmas characterise, with a zero read as 1 (fan-out, concurrency, circuit fields) or as the configured window. |
| Limits.ResolvedIsTightest | src/hermes_orchestrator/usage_services.py:242-279 | The folded value of a field is a candidate (setting, enabled matching row, or the task's own integer) and no candidate is smaller. |
| Limits.RowOrderIsIrrelevant | src/hermes_orchestrator/usage_services.py:257-279 | Two budget tables with the same rows, in any order and with any repetition, resolve to the same limits. |
| Limits.BudgetsOnlyTighten | src/hermes_orchestrator/usage_services.py:248-290 | Adding rows never raises any effective field but the window, and fan-out, concurrency and retries never exceed max(1, setting) resp. the setting. |
| Limits.WindowGrowsExactlyAtZero | src/hermes_orchestrator/usage_services.py:281-290 | The exception: the window grows if and only if the added rows bring it from something else to zero, which reads as unset, and it was below the configured one. |
| Controls.AdmittedBelowCaps | src/hermes_orchestrator/usage_services.py:436-475 | When the gate admits a dispatch, the task's runs, the active runs and the active siblings are strictly below the configured caps, whatever the budgets say. |
| Controls.DenialSurvivesNewBudgets | src/hermes_orchestrator/usage_services.py:436-500 | A refusal for retries, fan-out, concurrency or hard budget still is one after adding budget rows that do not shrink the window. |
| ControlPlane.Session.ClaimDispatchingRuns | src/hermes_orchestrator/task_services.py:157-204 | The claim loop leaves exactly the tables of `ClaimRuns`, and returns the claimed ids in order. |
| Leases.ClaimExactly | src/hermes_orchestrator/task_services.py:157-204 | A claim takes the soonest of the runs that are under way, due, unlocked and free, as many as its limit allows and no other, and leases each to its owner for exactly the duration asked for. |
| Preservation.ClaimQueryShape | src/hermes_orchestrator/task_services.py:166-184 | The claimed ids are distinct, unlocked, claimable, soonest first, at most `limit`, and a claimable run is left out only if `limit` sooner ones were taken. |
| ControlPlane.Session.HeartbeatRunLease | src/hermes_orchestrator/task_services.py:207-224 | New state and outcome equal `Heartbeat`. |
| Leases.BeatExactly | src/hermes_orchestrator/task_services.py:136-224 | A heartbeat is accepted if and only if its owner holds an unexpired lease on a dispatching or running run, and leaves the expiry at now plus the duration, with owner and acquisition as they were; a refusal changes nothing. |
| Leases.HeldUntilExpiry | src/hermes_orchestrator/task_services.py:141-224 | Over any guarded history, until a lease expires and unless it is given up in between, the run is still its holder's and nobody has claimed it. |
| ControlPlane.Session.ReleaseRunLease | src/hermes_orchestrator/task_services.py:227-251 | New state and outcome equal `Release`. |
| Leases.DropExactly | src/hermes_orchestrator/task_services.py:227-251 | A release is accepted exactly from the holder, frees the run and sets when it may be claimed again; a refusal changes nothing. |
| ControlPlane.Session.CreateTask | src/hermes_orchestrator/task_services.py:254-294 | New state and outcome equal `CreateTask`: replay, key conflict, missing dependency or parent, or one appended row. |
| Admission.CreateAppends | src/hermes_orchestrator/task_services.py:261-294 | A creation appends exactly the pending task under a key nobody used, or replays the row that has the key, or changes nothing. |
| Effects.CreationsExactly | src/hermes_orchestrator/task_services.py:254-294 | A key that is known is answered with its own task or refused; a new one is refused for a missing dependency, then for a missing parent, and else adds one pending task with its audit row. |
| ControlPlane.Session.EnforceDispatchControls | src/hermes_orchestrator/usage_services.py:338-513 | The gate's checks in their order with their error codes, and the soft-limit note it adds to the audit. |
| ControlPlane.Session.DispatchTask | src/hermes_orchestrator/task_services.py:308-411 | New state and outcome equal `DispatchTask`: replay, each refusal in order, or the new run, its approval and the task's status. |
| Gate.GrantedExactly | src/hermes_orchestrator/task_services.py:308-411 | A dispatch under a new key adds a run if and only if none of the fourteen checks stops it: task, status, self-review, dependencies, active run, profile (off, denied, effort), open breaker, exhausted quota, retries, fan-out, concurrency, hard budget. |
| Gate.FirstCheckRefuses | src/hermes_orchestrator/usage_services.py:338-500 | The first check that stops a dispatch gives the error code, and no table changes but the audit, and the status of a task with open dependencies. |
| Gate.ClearIsGranted | src/hermes_orchestrator/task_services.py:347-411 | A granted dispatch adds the run with every column as asked for (worker, profile, key, timeout within the deadline), its approval if one is required, and moves its task on; nothing else changes. |
| Gate.OpenBreakerRefusesExactly | src/hermes_orchestrator/usage_services.py:391-409 | A dispatch that adds a run found the breaker of the payload's worker and profile closed and no unexpired exhausted quota of the project; one that passes every other check is refused with `circuit_open` if and only if that breaker is open. |
| Gate.NothingPastAnOpenBreaker | src/hermes_orchestrator/usage_services.py:391-572 | Over any guarded history, after a verdict that reached the threshold no call adds a run for that worker and profile until a success or a reset. |
| Gate.KnownKeyIsAnswered | src/hermes_orchestrator/task_services.py:319-324 | A key that a run has is answered with that run if task and payload are the same, and else refused, without a change. |
| Admission.DispatchShape | src/hermes_orchestrator/task_services.py:319-411 | An accepted dispatch passed every check (open task, no active run, room under all caps) and appended exactly the new run, numbered next. |
| Admission.LastAttemptCounts | src/hermes_orchestrator/task_services.py:356-366 | The highest attempt number of a task equals the number of its runs, so numbering by maximum plus one is gapless. |
| ControlPlane.Session.RecordRunOutcome | src/hermes_orchestrator/usage_services.py:516-572 | The breaker of the run's worker and profile after one verdict equals `RecordOutcome`, opening at the threshold in force. |
| Breakers.VerdictsExactly | src/hermes_orchestrator/usage_services.py:516-572 | A verdict changes the breaker of the run's worker and effective profile only: success clears it; a failure counts on if its code is the remembered one and from one otherwise, and at the threshold opens it from now for the cooldown, with an audit row. |
| ControlPlane.Session.IngestRunUsage | src/hermes_orchestrator/usage_services.py:114-239 | One ledger entry per run: first filing appends, an identical one replays, a different one is a conflict. |
| Bookings.CallsBookTruly | src/hermes_orchestrator/usage_services.py:114-239 | Whatever call files an entry, the entry tells what the rows of its run and task tell after that call: usage, both profiles, worker, requester, category, outcome, retry number, duration from start to end, quota flag and reset. |
| Bookings.EntriesWereTrue | src/hermes_orchestrator/usage_services.py:114-239 | So in every guarded history each ledger entry was filed by one call, told then what its rows told, and has not been touched since. |
| ControlPlane.Session.TransitionRun | src/hermes_orchestrator/task_services.py:414-486 | New state and outcome equal `TransitionRun`; a ledger conflict rolls everything back. |
| Moves.MovesExactly | src/hermes_orchestrator/task_services.py:414-486 | Under the invariant a move is accepted if and only if the lifecycle lists it, and then row, task and ledger tell what was reported and nothing else changed. On completion a handed-over task is blocked exactly if the hand-over says so, else awaits approval exactly if a completion approval of the run is pending, and else is completed. |
| Preservation.TransitionKeepsInv | src/hermes_orchestrator/task_services.py:414-486 | A move keeps the invariant of all tables and `usage_ingest_conflict` is out of its reach. |
| ControlPlane.Session.HandoffTask | src/hermes_orchestrator/task_services.py:489-607 | New state and outcome equal `HandoffTask`: replay, refusals, a blocked or completed task, or a completion approval. |
| Closing.HandoffKeepsInv | src/hermes_orchestrator/task_services.py:489-607 | A hand-over keeps the invariant and leaves cancelled tasks untouched. |
| Effects.HandoverExactly | src/hermes_orchestrator/task_services.py:535-607 | With a run under way a hand-over under a new key is accepted if and only if its worker makes it, it says blocked or completed, and its worker is not the reviewer; it is stored on run and comment, and blocks the task, asks for its review, or completes it. |
| Effects.HandoverElse | src/hermes_orchestrator/task_services.py:489-536 | Without a running run it is refused; a known key is answered with its own comment or refused; neither changes a table. |
| ControlPlane.Session.CancelTask | src/hermes_orchestrator/task_services.py:690-754 | New state and outcome equal `CancelTask`, with the pending approvals rejected one by one. |
| Effects.CancelExactly | src/hermes_orchestrator/task_services.py:690-754 | A cancellation is refused, repeated or carried out: the task is marked, its active run is cancelled and booked, the approvals of its runs that waited are rejected by whoever cancelled, and every other row stays. |
| Closing.CancelAgainIsQuiet | src/hermes_orchestrator/task_services.py:646-754 | A repeated or refused cancellation changes no table, although a repetition runs the rejection loop again. |
| Closing.CancelKeepsInv | src/hermes_orchestrator/task_services.py:690-754 | A cancellation seals its task, keeps the invariant and freezes every task cancelled before. |
| ControlPlane.Session.ResolveApproval | src/hermes_orchestrator/task_services.py:757-852 | New state and outcome equal `ResolveApproval` as the code has it, guarded only by the decision key. |
| Effects.ResolveExactly | src/hermes_orchestrator/task_services.py:757-852 | A decision on a run's newest approval is repeated or refused in the order of the checks, finds the approval lapsed, or takes effect on exactly the approval, the run, its task and the ledger as its action and verdict say. |
| Deciders.DecidersAreEntitled | src/hermes_orchestrator/task_services.py:783-786 | In every guarded history an approval that was granted, or rejected by a decision, was decided by somebody other than its run's worker, and by the reviewer if the task asks for an independent review. |
| Reviews.CallsHoldReviews | src/hermes_orchestrator/task_services.py:414-852 | A guarded call lets a reviewed task be completed while a completion approval of its current run's hand-over is pending if and only if it grants one completion approval while another such approval waits (`Rash`). |
| Reviews.ReviewsAreNotSkippedExactly | src/hermes_orchestrator/task_services.py:441-848 | So over a guarded history no reviewed task is ever completed with such an approval pending if and only if no decision of the history was rash. |
| RashApproval.RashIsReachable | src/hermes_orchestrator/task_services.py:489-835 | Seven ordinary calls from empty tables do it: a run that is handed over twice has two approvals, and granting the newer one completes the task. |
| Reviews.DeliveriesAreReviewed | src/hermes_orchestrator/task_services.py:441-835 | In every guarded history, rash or not, a reviewed task that is completed although its current run was delivered has the reviewer's approval of the completion of one of its runs. |
| Approvals.ResolveKeepsInvExactly | src/hermes_orchestrator/task_services.py:757-852 | From any state that satisfies the invariant, a decision keeps it if and only if it is not `Unsafe`: it approves a run that has ended, or restates a cancelled task. |
| Approvals.PendingDecisionsAreSafe | src/hermes_orchestrator/task_services.py:776-848 | Deciding only pending approvals, and dispatch approvals only of runs that still wait for one, is enough to be safe. |
| LateApproval.LateApprovalReopensARun | src/hermes_orchestrator/task_services.py:776-848 | Whenever a run waiting for its approval is swept as overdue and then approved, the approval goes through and the run is dispatched again although its timeout is in the ledger. |
| LateApproval.WaitingIsReachable | src/hermes_orchestrator/task_services.py:308-411 | A two-call history reaches a state with one run waiting for an approval that outlives it. |
| LateApproval.WaitingRaces | src/hermes_orchestrator/task_services.py:792-848 | In that state the race above happens. |
| LapsedApproval.LapsedApprovalRestates | src/hermes_orchestrator/task_services.py:776-852 | In any state: a decision that comes after the expiry of a completion approval only marks it as expired; if the task is cancelled after that, any second decision finds the approval again and turns the cancelled task into a failed one. |
| LapsedApproval.LapsingIsReachable | src/hermes_orchestrator/task_services.py:254-607 | A five-call history from empty tables reaches such a state. |
| ControlPlane.Session.ExpireDueRuns | src/hermes_orchestrator/task_services.py:855-898 | The watchdog's sweep leaves exactly the tables of `ExpireDueRuns` and lists the runs it ended. |
| Effects.SweepExactly | src/hermes_orchestrator/task_services.py:855-898 | The sweep times out every run that is under way past its time and no other, with its task, books each of them once, in order, and changes no other row. |
| Closing.SweepKeepsInv | src/hermes_orchestrator/task_services.py:855-898 | The sweep never aborts; it times out exactly the overdue runs and changes no other run or approval. |
| Histories.StepKeepsInv | src/hermes_orchestrator/task_services.py:157-898 | Every service call that is not an unsafe decision keeps the invariant: links, unique keys, gapless numbering, one active run per task, caps, ledger, leases, cancelled tasks. |
| Histories.EveryHistoryIsSafe | src/hermes_orchestrator/task_services.py:157-898 | Every state reached from empty tables by guarded calls satisfies that invariant. |
| Histories.CapacityHolds | src/hermes_orchestrator/usage_services.py:436-475 | In every such state: at most one active run and max_retries+1 runs per task, numbered exactly 1..n, and at most max(1, setting) active runs overall and among siblings, under any budgets. |
| Histories.LedgerMatchesEndedRuns | src/hermes_orchestrator/usage_services.py:150-222 | In every such state a run has ended if and only if it has a ledger entry, no run has two, and the entry carries its status and attempt minus one. |
| Histories.CancellationIsFinal | src/hermes_orchestrator/task_services.py:646-754 | After a cancellation no later history changes the task's status, runs it, or approves anything on it. |
| Endings.LedgerIsAppendOnly | src/hermes_orchestrator/usage_services.py:150-222 | No service call rewrites or removes a ledger entry. |
| Endings.EndingsAreFinal | src/hermes_orchestrator/task_services.py:61-67 | Once a run has ended, no later guarded history changes its status or its ledger entry. |
| Leases.CallSteps | src/hermes_orchestrator/task_services.py:141-251 | Whatever the call, a lease is granted only by a claim while the run is free, for the duration it asks; moved only by a heartbeat of its holder while it stands, to that call's now plus duration; and otherwise kept or dropped. |
| Leases.LeasesExclude | src/hermes_orchestrator/task_services.py:141-251 | Over any history with a monotone clock, the lease windows granted on a run are pairwise disjoint, number its dispatch attempts, and the last one is the lease in the row or over. |
| Leases.EndedRunsAreFree | src/hermes_orchestrator/task_services.py:150-154 | A run that has ended carries no lease. |
| ClaimAudit.AttemptsEqualClaims | src/hermes_orchestrator/task_services.py:186-203 | Over any history each run's `dispatch_attempts` equals the number of its `run.claimed` audit events. |
| Identity.ApplyExtends | src/hermes_orchestrator/task_services.py:157-898 | Whatever the call, task and run rows are only appended and keep identity, key and, unless a dispatcher reports it, remote run. |
| Chains.WorkflowDepth | src/hermes_orchestrator/workflow_coordinator.py:229-242 | On any parent map the loop with its visited set terminates and returns `DepthOf`. |
| Chains.DepthMeans | src/hermes_orchestrator/workflow_coordinator.py:229-242 | That answer is n exactly when the n-th ancestor is a root, "parent missing" exactly when an ancestor is missing from the table, "cycle" exactly when the chain never ends. |
| Coordinator.WorkflowCoordinator.CreateWorkflowContinuation | src/hermes_orchestrator/workflow_services.py:143-277 | New state and outcome equal `CreateContinuation`. |
| Directives.DirectivesExactly | src/hermes_orchestrator/workflow_coordinator.py:67-165 | An ended run of continuing work is tried again if and only if it failed, retries are not switched off and its limit is not used up; else the work goes to the parent's assignee or requester that is an agent, with the profile, class and scope the budgets say; it raises an error exactly if nobody answers for the parent. |
| Directives.ContinuationsExactly | src/hermes_orchestrator/workflow_services.py:67-277 | A continuation is made once per event, target and action, for a terminal event of work that is not cancelled, within the fan-out of settings and task; every other event is skipped under the code of the first hindrance. |
| Directives.FanOutIsCapped | src/hermes_orchestrator/workflow_services.py:67-73 | In every history a task has no more continuations that wait or were dispatched than the settings allow, nor more than its own budget does. |
| Coordinator.WorkflowCoordinator.TransitionContinuation | src/hermes_orchestrator/workflow_services.py:280-313 | New state and outcome equal `TransitionContinuation`: unknown continuation, unknown status and forbidden transition are refused in this order; else the status changes, and a failure stores its code or the default one. |
| Coordinator.WorkflowCoordinator.Discover | src/hermes_orchestrator/workflow_coordinator.py:343-380 | One discovery pass over the oldest four batches of triggers equals `DiscoverPass`; errors other than a refused continuation end it. |
| Coordinator.WorkflowCoordinator.Retry | src/hermes_orchestrator/workflow_coordinator.py:398-441 | New tables and outcome equal `RetrySource`. |
| Routes.RetriesAreChecked | src/hermes_orchestrator/workflow_coordinator.py:398-441 | A retry dispatches the source task, for the directive's target and profile under the continuation's key, only if the chain above it is within depth and the target is an active agent; else it is refused for the first of these, without a change. |
| Coordinator.WorkflowCoordinator.Resume | src/hermes_orchestrator/workflow_coordinator.py:443-507 | New state equals `ResumePass`: the successor task, its dispatch, the settled continuation. |
| Routes.ResumesAreRouted | src/hermes_orchestrator/workflow_coordinator.py:201-507 | A resume adds a task if and only if the depth is in bounds, both agents are active, a live edge from the run's worker to the target carries class and scope, and there is no successor yet; with depth and agents in order, the continuation fails with `workflow_communication_denied` if and only if no edge does; otherwise the first obstacle is its failure. |
| Routes.SuccessorInherits | src/hermes_orchestrator/workflow_coordinator.py:268-313 | The successor hangs below its source for the target, with the source's workflow, priority, deadline and budget (the coordinator's own fields set anew), at most twenty references in order of first occurrence, no review and no dependencies. |
| Routes.SuccessorsHadRoutes | src/hermes_orchestrator/workflow_coordinator.py:201-507 | In every interleaving, crashes included, every successor was created by one transaction that found, in the directory it acted on, both agents active and such an edge from the continued run's worker to the successor's assignee. |
| Coordinator.WorkflowCoordinator.Process | src/hermes_orchestrator/workflow_coordinator.py:382-396 | Processing a continuation equals `ProcessPass`, including the failures that settle it. |
| Routes.ProcessedAsDirected | src/hermes_orchestrator/workflow_coordinator.py:382-507 | A pending continuation retries its source or resumes its workflow as its directive says; a run it adds is the directive's, under the continuation's key; it ends dispatched only if its run exists, and else failed. |
| Coordinator.WorkflowCoordinator.RunOnce | src/hermes_orchestrator/workflow_coordinator.py:327-341 | A round runs the agent policy's pass unless it is disabled, then discovers, then processes the oldest pending continuations; an error that escapes from one of them ends the round there. |
| Rounds.RoundsAreHistories | src/hermes_orchestrator/workflow_coordinator.py:327-528 | Whatever a round does, and however it ends, a succession of the coordinator's transactions accounts for it, so the theorems about histories hold of rounds. |
| Rounds.RoundsSettle | src/hermes_orchestrator/workflow_coordinator.py:327-396 | A round that no error ends settles the oldest pending continuations, in order, as many as its batch allows, and touches no other. |
| Rounds.RoundsTerminate | src/hermes_orchestrator/workflow_coordinator.py:327-341 | So any number of rounds of a coordinator left alone keeps the invariant and adds no more rows than the rank. |
| Termination.WorkIsBounded | src/hermes_orchestrator/workflow_coordinator.py:343-507 | With an explicit rank over tasks, runs, events and continuations, the work done in any interleaving of coordinators, crashes, replays and services never exceeds the initial rank plus what came from outside. |
| Termination.LoopTerminates | src/hermes_orchestrator/workflow_coordinator.py:118-165 | Left alone, the loop makes no more progress than the rank, and creates no more rows than that. |
| Termination.ContinuationsActOnce | src/hermes_orchestrator/workflow_coordinator.py:382-507 | In every history a continuation has at most one successor task and one run, a dispatched one has exactly one run, and no event has two continuations. |
| Termination.SuccessorsRespectDepth | src/hermes_orchestrator/workflow_coordinator.py:268-313 | Every coordinator-created task hangs below the task it continues, at most `workflow_max_depth` deep, and stores exactly that depth. |
| Termination.WorkflowsAreAcyclic | src/hermes_orchestrator/task_services.py:268-284 | Parents and dependencies always point to older tasks, so no ancestor chain returns. |
| Termination.DiscoveryConsumes | src/hermes_orchestrator/workflow_coordinator.py:252-265 | A turn of discovery marks its event as seen exactly when the query returns it and a directive exists, and no other event. |
| Termination.LateEventsAreNeverDiscovered | src/hermes_orchestrator/workflow_coordinator.py:345-358 | An unseen event with four batches of older triggers before it is never discovered, in any continuation of the history. |
| Stalls.OverlookedIsReachable | src/hermes_orchestrator/workflow_coordinator.py:343-380 | For every batch size a history of ordinary runs from empty tables reaches a failed run whose retry is due and that no later history discovers. |
| Passes.ProcessingSettles | src/hermes_orchestrator/workflow_coordinator.py:382-528 | Processing a pending continuation always settles it and uses up rank. |
| Passes.DiscoveryKeepsWired | src/hermes_orchestrator/workflow_coordinator.py:343-380 | A discovery pass keeps the coordinator's invariant, touches no task, run or event, and uses up rank unless it changes nothing. |
| Passes.DiscoveryStopsAtTheFirstError | src/hermes_orchestrator/workflow_coordinator.py:359-380 | A pass consumes exactly the consumable events before the first one whose directive raises an error, and reports an error exactly when there is one. |
| Passes.OrphansRaiseExactly | src/hermes_orchestrator/workflow_coordinator.py:93-165 | An unseen event of the batch raises an error under every budget table if and only if its task's parent names no agent and it is not a failure to be retried: no failure, retries disabled, or more runs than the task's own limit. |
| Passes.OrphansStopTheRound | src/hermes_orchestrator/workflow_coordinator.py:343-380 | Such an event makes every round fail before any continuation is processed. |
| Passes.OrphansStayStuck | src/hermes_orchestrator/workflow_coordinator.py:93-165 | And no later history releases it, if its run has ended with the outcome the event tells. |
| Stalls.OrphanIsReachable | src/hermes_orchestrator/workflow_coordinator.py:98-111 | A person's task with a child that an agent completes, under default settings, reaches that state from empty tables. |
| Dispatcher.Worker.Submit | src/hermes_orchestrator/hermes_adapter.py:248-272 | A worker that deduplicates on the idempotency key answers a repeated submission with the run it already has. |
| Dispatcher.RunDispatcher.Poll | src/hermes_orchestrator/run_dispatcher.py:248-255 | Polling claims runs and opens one waiting job per claim. |
| Dispatcher.RunDispatcher.StartRemote | src/hermes_orchestrator/run_dispatcher.py:288-320 | A run that names no remote run is submitted under its own key. |
| Dispatcher.RunDispatcher.SaveRemote | src/hermes_orchestrator/run_dispatcher.py:320-331 | The remote id is saved in a transaction of its own, and nothing else of the row. |
| Dispatcher.RunDispatcher.Renew | src/hermes_orchestrator/run_dispatcher.py:189-202 | A renewal succeeds exactly when the heartbeat does; a lost lease changes nothing. |
| Dispatcher.RunDispatcher.HandleError | src/hermes_orchestrator/run_dispatcher.py:348-389 | The error is recorded, then the lease is given back if the error may be retried and attempts are left, else a dispatching or running run is failed; the job is over, and exactly a refusal of that call escapes. |
| Failures.FailuresAreRecorded | src/hermes_orchestrator/run_dispatcher.py:348-365 | The error replaces the details of the row except the hand-over, and no other column. |
| Failures.FailuresAreConcluded | src/hermes_orchestrator/run_dispatcher.py:366-389 | A run that may be tried again is given back for the time given if its job still holds it; one that may not is failed with the error's code and message and booked if it is still under way; nothing else changes. |
| Dispatcher.RunDispatcher.Launch | src/hermes_orchestrator/run_dispatcher.py:292-331 | Submit, renew, save: afterwards the row names the run that the worker keeps for its key; if the answer is lost or the lease is gone, the remote id is not saved and the job ends. |
| Dispatcher.RunDispatcher.Finalize | src/hermes_orchestrator/hermes_execution.py:257-314 | When it reports an end, the run has the mapped status and its row carries the answer's usage, effective profile, code, summary and details, with the hand-over it had; its one ledger entry carries the same, and the quota reset the details give. It does report one whenever the answer is a final state, the runtime is verified and the run is under way; else the answer is handled as an error. |
| Dispatcher.RunDispatcher.Process | src/hermes_orchestrator/run_dispatcher.py:265-335 | Whatever target, worker, stream and clock answer, processing a claimed run is a succession of orderly actions that ends its job. Each answer is followed by a renewal, none after one is lost, and exactly then the result is a lost lease; an end is reported with the worker's last state on row and ledger; a run that names a remote run is not submitted again; and if nothing goes wrong outside, the run ends unless the lease is lost. |
| Dispatcher.RunDispatcher.RunOnce | src/hermes_orchestrator/run_dispatcher.py:245-263 | Whatever happens outside, a round is a succession of orderly actions, and every run it claims gets one result, in the order of the claim, unless an error escapes; after a stop the rest are given back. |
| Dispatcher.RunDispatcher.RunRound | src/hermes_orchestrator/run_dispatcher.py:245-335 | Hence one round extends a disciplined history by another, so the history theorems below hold across it. |
| Dispatching.ReachesIsClosed | src/hermes_orchestrator/run_dispatcher.py:265-389 | Being connected by a disciplined history holds for each orderly action and composes. |
| Dispatching.OneRemoteRun | src/hermes_orchestrator/run_dispatcher.py:288-331 | For any number of dispatchers, crashes and takeovers, the worker holds at most one run under a run's key; a remote id once saved is that run's and never changes. |
| Dispatching.RepeatsAreHarmlessWithKeysOnly | src/hermes_orchestrator/hermes_execution.py:317-384 | Submitting twice is harmless if and only if the submission carries a key; `execute_run_via_hermes` sends none. |
| Dispatching.ErrorRetriesAreBounded | src/hermes_orchestrator/run_dispatcher.py:348-389 | Over any history, the times error handling gives back the lease of a run are at most `usage_max_retries`. |
| Dispatching.LastErrorEndsTheRun | src/hermes_orchestrator/run_dispatcher.py:366-380 | An error that may not be retried, or no longer, leaves the run neither dispatching nor running. |
| EventStream.ReadConnection | src/hermes_orchestrator/hermes_adapter.py:366-418 | Reading one connection line by line collects what accepting its decoded events in order collects, up to the first new terminal event. |
| EventStream.StreamEvents | src/hermes_orchestrator/hermes_adapter.py:366-418 | The reconnecting loop with its fingerprint set and last id returns `Stream`, within `max_reconnects`+1 connections. |
| EventStream.StreamIsThePrefix | src/hermes_orchestrator/hermes_adapter.py:366-418 | If every connection replays a contiguous stretch of the worker's log from no later than the acknowledged position, a stream that returns returns exactly the log through its first terminal event. |
| EventStream.StreamSucceeds | src/hermes_orchestrator/hermes_adapter.py:366-418 | And it does return as soon as one allowed connection delivers that event and none before it is an HTTP error. |
| Frames.WireRoundTrip | src/hermes_orchestrator/hermes_adapter.py:386-436 | Decoding the lines of any sequence of written events gives back exactly those events. |
| Frames.BrokenAnywhereIsAPrefix | src/hermes_orchestrator/hermes_adapter.py:386-418 | A connection that breaks after any line delivers a prefix of the events written. |
| Frames.CleanCloseExactly | src/hermes_orchestrator/hermes_adapter.py:386-418 | Wherever a connection closes cleanly, the reader has a prefix of the events written if and only if the close did not fall into a data line past its colon, or what arrived of the data decodes to the same event. |
| Frames.CleanCloseInvents | src/hermes_orchestrator/hermes_adapter.py:402-412 | A close within the data of a lone event leaves the reader with an event that nobody wrote, where a broken connection leaves it with none. |
| Frames.FramesAreFaithful | src/hermes_orchestrator/hermes_adapter.py:366-436 | A worker that writes frames from an admissible position on meets the assumption of the stream theorems, wherever its connections break and wherever they close harmlessly. |
| EventLog.EventTable.PersistEvent | src/hermes_orchestrator/hermes_execution.py:196-219 | One event is stored with the next sequence number unless its id is on record for the run. |
| EventLog.EventTable.PersistWorkerEvents | src/hermes_orchestrator/hermes_execution.py:222-229 | The loop stores `PersistAll`. |
| EventLog.EventTable.PersistTerminalIfMissing | src/hermes_orchestrator/hermes_execution.py:232-254 | An ending is added exactly if the run has none. |
| EventLog.PersistedExactlyOnce | src/hermes_orchestrator/hermes_execution.py:196-229 | Persisting a stream again from any point an earlier attempt had reached leaves the log stored once, in order. |
| EventLog.PersistedElsewhere | src/hermes_orchestrator/hermes_execution.py:196-229 | Persisting a run's stream touches no event of another run. |
| EventLog.PersistAllKeepsNumbers | src/hermes_orchestrator/hermes_execution.py:208-219 | Sequence numbers of every run stay 1, 2, 3 and so on. |
| EventLog.RepeatsNeedIds | src/hermes_orchestrator/hermes_execution.py:196-207 | Persisting an event twice adds nothing if and only if it has an id. |
| EventLog.FinalisedOnce | src/hermes_orchestrator/hermes_execution.py:232-314 | After finalising, exactly one ending is on record: the log's own if it was persisted, else the added one. |
| Environments.EnvironmentService.BeginAction | src/hermes_orchestrator/environment_services.py:82-125 | A known key replays its answer, conflicts or waits; a new one records a requested action. |
| Releases.KnownKeysAreAnswered | src/hermes_orchestrator/environment_services.py:82-125 | A call under a key on record is answered with the recorded outcome if requester and request are the same, and with a conflict otherwise, without a change. |
| Environments.EnvironmentService.FindPort | src/hermes_orchestrator/environment_services.py:296-318 | The search returns the lowest port of the pool that is not used, or none if all are. |
| Environments.EnvironmentService.Deploy | src/hermes_orchestrator/environment_services.py:195-351 | New state and outcome equal `DeployEnvironment`. |
| Releases.DevDeploysExactly | src/hermes_orchestrator/environment_services.py:195-351 | A deployment to dev under a new key puts its branch and SHA in place of the row that was, now superseded, and is refused exactly for a foreign repository, a developer or local fields; the answer is on record. |
| Releases.LocalDeploysExactly | src/hermes_orchestrator/environment_services.py:195-351 | A local one that is in order expires those past their time; then it is refused if its task still has one or no port is free, and else put in place for its task on the lowest free port, for the time asked or the default. |
| Environments.EnvironmentService.Expire | src/hermes_orchestrator/environment_services.py:354-394 | New state and outcome equal `ExpireLocal`. |
| Releases.ExpiriesExactly | src/hermes_orchestrator/environment_services.py:354-394 | An expiry under a new key takes exactly the named local deployment out of place, and is refused if there is none. |
| Environments.EnvironmentService.Promote | src/hermes_orchestrator/environment_services.py:397-524 | New state and outcome equal `PromoteEnvironment`: source, stage order, gates, approval, supersession. |
| Releases.PromotionsExactly | src/hermes_orchestrator/environment_services.py:397-524 | A promotion under a new key is refused for the first thing wrong with it; else it adds one active row with the source's repository and SHA one stage up, under its SHA in pre and its tag in prod-sim, naming the source and an approver other than the requester; the row it displaces is superseded and no other changes. |
| Environments.EnvironmentService.Rollback | src/hermes_orchestrator/environment_services.py:527-617 | New state and outcome equal `RollbackEnvironment`. |
| Releases.RollbacksExactly | src/hermes_orchestrator/environment_services.py:527-617 | A rollback under a new key is refused for the first thing wrong with it; else it adds one active row with the candidate's repository, ref, SHA and source, naming the row it displaces, now superseded, and an approver other than the requester; no other row changes. |
| Promotion.EveryHistoryIsGoverned | src/hermes_orchestrator/environment_services.py:195-617 | Every history keeps lineage, one current row per slot, distinct ports and one answer per key; states only fall and recorded answers never change. |
| Promotion.ProdSimComesFromDev | src/hermes_orchestrator/environment_services.py:425-502 | Every prod-sim deployment, rollbacks included, has a source chain to pre and dev with its repository and SHA, and each promotion was approved by someone other than its requester. |
| Promotion.SlotsAndPortsAreExclusive | src/hermes_orchestrator/environment_services.py:150-162 | Two active deployments never share environment and slot, and active local ones have distinct ports inside the pool. |
| Promotion.NeverActiveAgain | src/hermes_orchestrator/environment_services.py:354-617 | A deployment that stopped being active is never active again. |
| Promotion.RepeatsReplay | src/hermes_orchestrator/environment_services.py:82-125 | Repeating any request, at once or after any history, repeats its answer, refusals and conflicts included, and changes nothing. |
| Promotion.PortPoolExhaustedExactly | src/hermes_orchestrator/environment_services.py:195-351 | In every governed state a local deploy under a new key is answered `local_port_pool_exhausted` if and only if it gets as far as the search and the unexpired active locals number the pool size; if they are fewer, it is granted the lowest port none of them uses. |
| UsageSummary.SummarizeUsage | src/hermes_orchestrator/usage_services.py:612-684 | The accumulating loop returns, in order of first occurrence, one group per key whose every column (runs, outcomes, known and unknown tokens, cost, duration, calls) is the sum over exactly its entries. |
| UsageSummary.TotalsAreNullExactly | src/hermes_orchestrator/usage_services.py:660-684 | A total, and the cost, is null if and only if some entry of the group does not know it, and else the sum over the group; the cost status is unknown exactly if no entry knows its cost, and partial exactly if some do and some do not. |
| UsageSummary.GroupsPartition | src/hermes_orchestrator/usage_services.py:621-684 | Each column of a returned report, the cost and the duration included, adds up to the sum over all entries. |
| UsageSummary.GrandTotalsAgree | src/hermes_orchestrator/usage_services.py:621-684 | Any two returned reports over the same entries have the same grand total in every column. |
| UsageSummary.ReportsMatchTheGate | src/hermes_orchestrator/usage_services.py:486-491 | The five token columns of a report returned for the entries in the window, grouped in any way, add up to what the dispatch gate counts as consumed. |
| ControlPlane.Session.ResetBreaker | src/hermes_orchestrator/usage_services.py:575-602 | A reset closes an existing breaker and clears its counter, code and times; an unknown breaker is refused. |
| Breakers.BreakersFoldTheirVerdicts | src/hermes_orchestrator/usage_services.py:516-602 | In every reachable state the breaker of a worker and profile is the fold of the verdicts the history gave on it: accepted moves and sweeps that ended its runs, in order, and resets; no other call touches it. |
| Breakers.BreakersOpenExactly | src/hermes_orchestrator/usage_services.py:552-563 | So a breaker in the table is open if and only if one of those verdicts reached the threshold then in force and no success or reset followed. |
| Circuits.CounterIsTheStretch | src/hermes_orchestrator/usage_services.py:516-572 | After any verdicts, the breaker's counter is the length of the longest stretch of failures since the last success or reset in which each carries the code remembered of those before it. |
| Circuits.CodedRepeats | src/hermes_orchestrator/usage_services.py:543-552 | Where every failure has a code, that means the code of the failure before. |
| Circuits.OpenExactly | src/hermes_orchestrator/usage_services.py:516-602 | A breaker is open if and only if it once reached its threshold and no success or reset came after. |
| Circuits.CodelessCount | src/hermes_orchestrator/usage_services.py:543-552 | Any number of failures without a code adds up on a breaker that remembers no code, and counts as one on any other. |
| Circuits.CodelessOpens | src/hermes_orchestrator/usage_services.py:552-563 | So a sequence of them opens a breaker if and only if it was open or the threshold is reached: by the k-th of them with the counter before on a breaker that remembers no code, and only by a threshold of one on any other. |
| Cursors.DecodeEncode | src/hermes_orchestrator/operations_services.py:149-160 | Base64url decoding inverts encoding on every byte sequence (RFC 4648, section 5). |
| Cursors.PadStrip | src/hermes_orchestrator/operations_services.py:149-156 | The padding computed from the length is exactly the padding that was stripped (RFC 4648, section 3.2). |
| Cursors.CursorRoundTrip | src/hermes_orchestrator/operations_services.py:149-160 | Decoding a cursor gives back its timestamp and id. |
| Timeline.TimelineView | src/hermes_orchestrator/operations_services.py:163-231 | Extending, sorting, filtering and cutting the event list returns `PageOf` the newest events of both sources. |
| Timeline.PagingEnumerates | src/hermes_orchestrator/operations_services.py:163-231 | For any page size, following the cursor yields every event exactly once in order of time and id, then empty pages. |
| Timeline.GrowingFeedLosesNothing | src/hermes_orchestrator/operations_services.py:217-231 | If between pages events are only added, and each lies after the cursor then held, the reader holds after every page exactly the events of the sorted table up to its cursor: none lost, none twice, in order. |
| Timeline.NewestExactly | src/hermes_orchestrator/operations_services.py:168-190 | A source's query returns an event if and only if fewer than five hundred of the source's events are newer. |
| Timeline.OldEventsAreUnreachable | src/hermes_orchestrator/operations_services.py:168-231 | An event with five hundred newer ones in its source is on no page, however far the cursor is followed. |
| Timeline.PagesShowExactly | src/hermes_orchestrator/operations_services.py:168-231 | Followed far enough, the pages show exactly the events with fewer than five hundred newer ones in their source. |
| AgentRequests.AgentService.Request | src/hermes_orchestrator/services.py:66-110 | New state and outcome equal `RequestAgent`: replay, conflict or one pending request. |
| Registrar.RequestsExactly | src/hermes_orchestrator/services.py:66-110 | A request is recorded once per key, pending and as asked for; a repeat is answered with it exactly if payload and requester are the same. |
| AgentRequests.AgentService.Decide | src/hermes_orchestrator/services.py:120-169 | New state and outcome equal `DecideRequest`, with its audited transition. |
| Registrar.DecisionsExactly | src/hermes_orchestrator/services.py:120-169 | Exactly a pending request is decided, once, under a key of its own, and approved only by somebody other than its requester; the order and the audited transition are recorded and nothing else changes. |
| AgentRequests.AgentService.Apply | src/hermes_orchestrator/services.py:172-229 | New state and outcome equal `RecordApplication`. |
| Registrar.ApplicationsExactly | src/hermes_orchestrator/services.py:172-229 | Exactly an approved request, or one whose application failed, is marked as applied or failed under a key of its own. |
| AgentRequests.AgentService.Retire | src/hermes_orchestrator/services.py:232-274 | New state and outcome equal `RetireRequest`. |
| Registrar.RetirementsExactly | src/hermes_orchestrator/services.py:232-274 | Exactly an applied request, or one whose application failed, is retired under a key of its own. |
| AgentRequests.AgentService.ProvisionRequest | src/hermes_orchestrator/provisioning_services.py:117-247 | New state and outcome equal `Provision`: an applied request is repeated only if its agent exists; else the application is recorded first and the agent's row comes in a second transaction. |
| Registrar.ProvisionsExactly | src/hermes_orchestrator/provisioning_services.py:117-247 | Provisioning changes the fleet only for an approved or failed request and a provisioner that succeeded, and then always does, under a new key. |
| Registrar.EnlistingExactly | src/hermes_orchestrator/provisioning_services.py:200-246 | Enlisting takes over the newest row of the name, or adds one, active and managed with the role asked for, and no other row. |
| AgentRequests.AgentService.Rollback | src/hermes_orchestrator/provisioning_services.py:250-314 | New state and outcome equal `RollbackAgent`: replay, conflict, refusals, or the agent disabled and the request retired together. |
| Registrar.TakingBackExactly | src/hermes_orchestrator/provisioning_services.py:250-314 | An agent is taken back once: exactly an active agent of an applied request is disabled under the key and the request is retired with it. |
| Registrar.NothingToTakeBack | src/hermes_orchestrator/provisioning_services.py:250-314 | Without the request, or without a row of its name, it is refused and nothing changes. |
| AgentRequests.AgentService.ProcessAgentRequest | src/hermes_orchestrator/agent_policy.py:373-434 | New state and escaped error equal `ProcessRequest`: a pending request is decided, and an approved one provisioned, as the evaluation says; only the provisioner's own errors are caught. |
| Registrar.EvaluatesExactly | src/hermes_orchestrator/agent_policy.py:254-370 | A request may be granted exactly if another asked for it, the signed profile of a known role contains it, its name is not in the fleet, and fleet and role have room. |
| Registrar.ProcessingIsVetted | src/hermes_orchestrator/agent_policy.py:373-434 | The policy enlists an agent only for a request that it may grant at that moment, and rejects a pending one that it may not. |
| AgentRequests.AgentService.RunPolicy | src/hermes_orchestrator/agent_policy.py:448-480 | The pass over the oldest requests the policy has to do with equals `ProcessBatch`; an error that escapes ends it. |
| Registrar.PolicyBatchesExactly | src/hermes_orchestrator/agent_policy.py:448-480 | The pass takes the oldest requests that are pending or approved by the policy, in order, as many as its limit allows, and no other. |
| Fleet.ProcessingIsUninterrupted | src/hermes_orchestrator/agent_policy.py:373-434 | The four steps of a policy coordinator, with nothing in between, are what the service does when it is left alone. |
| Fleet.AuditReplaysToTheStage | src/hermes_orchestrator/services.py:40-63 | In every history each request's audited transitions chain and fold to its present stage, and whatever was applied or retired was approved by someone other than its requester. |
| Fleet.AppliedHaveAgents | src/hermes_orchestrator/provisioning_services.py:155-246 | In every history with no crash between the two transactions and none under way, each applied request's name has an agent row. |
| Fleet.CrashStrandsExactly | src/hermes_orchestrator/provisioning_services.py:155-246 | A step strands a request (applied, no agent of its name, nobody about to enlist one) if and only if it is the crash, between the two transactions, of the last job that would enlist that name. |
| Fleet.StrandedStays | src/hermes_orchestrator/agent_policy.py:373-434 | It stays stranded over every history that neither retires it nor provisions another request of its name, and the policy makes nothing of it. |
| Fleet.RefusedExactly | src/hermes_orchestrator/provisioning_services.py:155-172 | Provisioning an applied request again is refused for a missing agent if and only if it is under the same key and no agent of its name exists. |
| FleetLimits.EnlistingKeepsLimitsExactly | src/hermes_orchestrator/agent_policy.py:280-292 | Enlisting an agent keeps a fleet within all limits if and only if there is room for it, given the row it takes over. |
| FleetLimits.LimitsHoldExactly | src/hermes_orchestrator/agent_policy.py:280-292 | Over any history, by hand or by policy, interleaved and crashing, the fleet and every role stay within their limits throughout if and only if each agent finds room when it is enlisted. |
| FleetLimits.FleetStaysWithinLimits | src/hermes_orchestrator/agent_policy.py:373-434 | When only the policy provisions and no agent is enlisted between an evaluation and the enlisting of its own agent, the limits hold throughout. |
| FleetLimits.FleetStaysWithinProfiles | src/hermes_orchestrator/agent_policy.py:254-434 | When only the policy provisions, in every history each agent was asked for under its name and role by a request that the signed profile of the role contains, for a role the policy limits. |
| FleetLimits.RoomExactly | src/hermes_orchestrator/agent_policy.py:280-292 | An agent of a new name finds room if and only if fleet and role have grown since its evaluation by less than the places then left. |
| FleetLimits.LastPlaceExactly | src/hermes_orchestrator/agent_policy.py:280-292 | With one place left at the evaluation and nothing taken back, the limit survives the enlisting if and only if no other new agent was enlisted in between. |
| FleetRace.OverlapExceedsTheLimit | src/hermes_orchestrator/agent_policy.py:373-434 | In any state, two coordinators about to enlist agents of different new names add two to the fleet, and keep its limit if and only if two places are left. |
| FleetRace.OverlapIsReachable | src/hermes_orchestrator/agent_policy.py:373-434 | From the empty registry with a limit of one, two overlapping evaluations end with two managed agents, without a crash and without anybody else. |

## Left out

- Routers, authentication, MCP server, dashboard, schemas and migrations: declarations and plumbing.
- HTTP clients, container commands, file rendering and fleet scripts: outside effects.
- Row identity and aliasing of ORM objects: rows are values in the fields of the classes.
- Isolation levels weaker than serializable, and `IntegrityError` races inside a transaction, other than the unique key checks that refuse a call.
- Threads of `LeaseKeeper`: heartbeats are actions that may fall anywhere in a history, and the explicit renewals of `_process`.
- Operation ids, comments other than hand-overs, `retry_after` values, requested and observed runtime columns, redaction, JSON decoding and text formatting.
- `WorkerResolver` and its cache, `prepare_requested_runtime` and `_persist_and_verify_runtime`: their answer is a parameter of `Process`.
- Audit rows of continuations, except those that mark an event as consumed; audit payloads, except the previous and new status of agent requests.
- The context snapshot of a continuation, except the summary, the artifacts and the directive, which are read back.
- Content checks of an agent profile (`_dangerous`, `_subset`, digests, reasons of a decision): one predicate of the request.
- Communication policy files and provisioner effects: only the agent's row and its state are kept.
- Cursors.DecodeCursor: refuses characters outside the base64 alphabet, which the library's decoder skips; no encoded cursor has any.
- Read-only views other than the timeline and the usage report.
- Histories.EveryHistoryIsSafe: assumes that no decision in the history is unsafe, because the code does not ensure it; Approvals.ResolveKeepsInvExactly says exactly what is assumed.
- EventStream.StreamIsThePrefix: assumes that the worker's events differ pairwise and that connections replay contiguous stretches; nothing is said of a worker that reorders its log.
- Timeline.PagingEnumerates: assumes that no two events share both timestamp and id; which events the queries leave out is said by Timeline.PagesShowExactly.
- Timeline.NewestExactly: the queries order by timestamp alone; events that share the timestamp at the cut are taken in the order of their ids.
- Timeline.GrowingFeedLosesNothing: concerns one list of events as it grows, without the cut at five hundred per source.
- FleetLimits.FleetStaysWithinLimits: assumes that nobody provisions by hand and that no enlisting comes between an evaluation and its own, because the code ensures neither; FleetLimits.LimitsHoldExactly and FleetLimits.RoomExactly say exactly what is needed, FleetRace.OverlapIsReachable shows the failure.
- FleetLimits.FleetStaysWithinProfiles: assumes that nobody provisions by hand; such a provisioning is not evaluated at all.
- UsageSummary.SummarizeUsage: what a report groups by is a parameter.
- Passes.OrphansStayStuck: assumes that an event which tells no failure tells the outcome its run has ended with; before that the run may still fail and be retried.
- HTTP status codes and messages; error codes are kept.
