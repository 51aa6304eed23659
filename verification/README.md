# agent-reactor: a verified model of its scheduler, session reducer and runtime

This Dafny project models the concurrent core of agent-reactor and proves what that core is
meant to guarantee. Two programs are covered. The **orchestrator** polls an issue tracker,
claims issues, spawns one worker per issue and retries with backoff. The **client** runs
terminal sessions made of stacked frames, driven by a pure reducer and an imperative runtime.
Everything outside the event loops (tracker, spawner, clock, file system, launcher, drivers
other than Claude's) is an arbitrary parameter, so each result holds for every answer the
outside can give and for every interleaving of inputs.

`dafny verify dfyconfig.toml` checks the whole project.

## How the model is laid out

| files | what they hold |
|---|---|
| `Order`, `Backoff` | string order and sorted listings; the 64-bit backoff arithmetic |
| `SchedulerTypes`, `SchedulerReduce` | the scheduler state, its transitions and its reducer, as functions |
| `SchedulerDrain` | `step`/`exec` as mutually recursive functions on a rank of events and effects; `Run` over a list of inputs |
| `SchedulerInvariant`, `SchedulerFolds`, `SchedulerSafety`, `SchedulerRuns` | the run invariant and its preservation by every event, effect, drain and input |
| `SchedulerDispatch`, `SchedulerCaps`, `SchedulerStateCaps`, `SchedulerReconcile`, `SchedulerUsage`, `SchedulerReports`, `SchedulerTheorems`, `SchedulerFleet` | the theorems about passes and runs |
| `SchedulerFields`, `SchedulerRetries`, `SchedulerTimes` | the same reducer once more, in terms of issue fields, tracker answers, counts and the clock only |
| `SchedulerWitness` | runs that reach what those theorems warn of |
| `SchedulerLoops`, `SchedulerShell` | the counting and allocation loops, and the scheduler object with its fields updated in place, proved to compute those functions |
| `GqlScanner`, `GqlSyntax`, `GqlCounting`, `GqlLimits` | the GraphQL scanner as an object, GraphQL syntax trees and their spellings, the counting theorem and where it stops |
| `FileRelay`, `FileRelayShell` | the file relay as a state machine, and as an object |
| `MergeEnv` | the environment overlay, its loops and its lookup law |
| `ClientState`, `ClientSessions`, `ClientTeardown`, `ClientJobs` | the session reducer; heads and recency lists, teardown, jobs |
| `ClientRequests` | what each request and notice does, in full: replies, the session it changes, and that nothing else changes |
| `ClientReducer` | the same reducer on shared session maps and frame slices, as methods that write into copies only |
| `ClientDriver`, `ClientRuntime`, `ClientOutcomes`, `ClientLoop` | the driver's branch guard, the spawn/cleanup/persistence protocol, what becomes of spawns and closures, and the runtime object |
| `Surface` | terminal surface subscriptions, the relay object and its fan-out |

## The main results

* **Scheduler safety** (`SchedulerTheorems.RunSafe`). After any inputs, Running is within Claimed, Claimed
  is within Running and the retry queue, those two are disjoint, worker handles match Running, and
  each armed timer or waiting fire belongs to the entry now queued. Every drain terminates.
* **Retry claims** (`RetentionOverRuns`, `OrphanFate`, `StrandedForever`, `StrandedHappens`). A queued retry keeps its claim
  through a run if and only if no spawn failed in it. `reduceSpawnFailed` drops the claim before it
  arms the retry. When such a retry fires while its issue is active and a slot is free, it is stranded:
  no later input claims, releases, reschedules or spawns it, and it holds a global slot for good. One failed
  spawn, its timer and its fire are enough to get there.
* **Caps** (`RunCapped`, `GreedyDispatch`, `RunStateCapped`, `RefreshExceeds`). The global cap holds over
  every run and reload. Dispatch never exceeds a state's cap; a relabel by the tracker can, exactly when
  it moves in more issues than it moves out and the room left can hold.
* **Dispatch by fields** (`DispatchByFields`, `SortedByRank`). Whatever the tracker lists, the issues claimed are fit by
  their own fields, in rank order (given priority first, smaller first, then older, then by identifier), within both
  caps; and every fit issue left out finds its state, or the scheduler, filled by issues that rank in front of it.
* **Retries and delays** (`RetryFate`, `DelaysOverRuns`, `ExitByRule`). By the tracker's answer alone, a fired retry is put
  off, forgotten, or spawned once at its own attempt. After any run every queued retry waits the backoff of its own
  attempt under the configuration that queued it, or a second after a clean exit or a push-back.
* **Stalls** (`StallsExactly`, `ReportPutsOffStall`). A tick kills a worker exactly when its last sign of life is older
  than the timeout.
* **Reconciliation** (`StallByRule`, `RefreshByRule`). The stall and refresh passes treat every issue by a rule that
  looks at that issue only, state and effects, whatever the other issues do.
* **Conservation** (`SchedulerUsage.RunConserves`, `RunReports`). Snapshot tokens and runtime are the sums of what was
  reported for running issues, across retries, stalls and releases; an issue's totals are what its cumulative
  reports climb, thread by thread, since it was claimed.
* **Workers** (`ExitIgnoresAttempt`, `HeldExactly`, `OneWorkerExactly`, `TwoLiveWorkers`). An exit is matched by
  issue only, so a late one demotes the attempt now running and drops its handle. Every live worker stays in
  reach if and only if no exit arrives for an issue that another worker has taken over, and no issue ever has
  two live workers if and only if none is respawned while a worker lost in that way is alive. A run with two exists.
* **GraphQL counting** (`CountsOperations`, `BlockEndExactly`, `CommentEndExactly`, `HangingExactly`). The scanner
  counts the operations of any document in any legible spelling. It ends a block string where section 2.9.4
  of the GraphQL specification (October 2021) does if and only if no escaped triple quote is inside, and a
  comment where section 2.1.4 does if and only if no carriage return comes before the first line feed. The
  second difference is harmless when only blanks and comments lie between the two ends; else what lies there is lost.
* **File relay** (`Delivery`, `AnnouncedExactly`, `MissedStaysMissed`, `WindowMisses`). What was broadcast is the file's bytes
  from the registration on, without loss or repeat, if and only if every piece could be encoded.
  Unread bytes are always announced or being swept if and only if no write reached the file unwatched and
  unannounced; bytes written between the size check and the watch are such a case and wait for the next write.
* **Sandboxes and answers** (`SandboxConservation`, `LostExactlyByPanics`, `RunOwned`, `OneAnswer`, `AnswersTrue`). Each cleanup closure is in
  exactly one place and runs at most once. The closures lost are exactly those a spawn held when it panicked.
  Each accepted request gets exactly one answer, and it says ok if and only if the frame came up and was still wanted.
* **Copy on write** (`ReduceRef`, `ReconcilePersist`, `Loop.Run`). The reducer never writes into the session map or
  the frame slices it was given. A result with the same map has the same sessions, so that comparing references is
  enough to keep the store equal to memory after every step of every run.
* **Sessions** (`RunGood`, `HeadFallback`, `TeardownExact`, `KillsExact`, `OneJobOfAKind`, `JobsExactly`, `StoreAgrees`, and the
  laws of `ClientRequests`). Heads and recency lists, exact teardown, who is killed and that kills come first, one job
  of a kind per Claude frame exactly while its guard is up, and a store equal to memory.
* **Surfaces** (`Surface.RunOk`, `LateNoticeCutsExactly`, `LateNoticeHappens`). Starts and stops balance. A close notice cuts
  off an open stream if and only if its key is subscribed again, and that stream is then a newer one.
* **Backoff** and **mergeEnv** (`BackoffExact`, `MergeOverridesExactly`, `MergeOrder`). The exact inputs on which each law
  holds, and the order of the merged entries for all inputs.

Where the code and its documentation disagree the model follows the code: the retry claim
dropped on a failed spawn, the delay that is zero from attempt 61 on although the shift is clamped, the
exit of a killed worker that is called idempotent but can drop its successor's handle, and the late
surface-close notice that cuts off a newer subscription are all kept as they are.

## Model

| member | source | states |
|---|---|---|
| `SchedulerDrain.ReduceBelow` | src/orchestrator/scheduler/reduce.go:14-39 | Every effect ranks below the event that emits it, which is why a drain of `step` terminates. |
| `SchedulerSafety.StepKeeps` | src/orchestrator/scheduler/scheduler.go:226-233 | Folding an event and draining its effects keeps the run invariant, leaving only what was pending behind it. |
| `SchedulerSafety.ExecKeeps` | src/orchestrator/scheduler/effects_exec.go:12-126 | So does carrying out one effect, whatever the tracker and the spawner answer. |
| `SchedulerRuns.HandleKeeps` | src/orchestrator/scheduler/scheduler.go:150-222 | Each input of the Run loop keeps the invariant. |
| `SchedulerRuns.RunKeeps` | src/orchestrator/scheduler/scheduler.go:150-193 | So does any list of inputs. |
| `SchedulerTheorems.RunSafe` | src/orchestrator/scheduler/effects_exec.go:12-149 | After any run: the inclusions between Running, Claimed and the retries, handles of Running only, one live timer or fire per issue and it matches its entry, every spawn was of a claimed issue neither running nor queued. |
| `SchedulerTheorems.RetainedExactly` | src/orchestrator/scheduler/reduce.go:76-86 | Along a trace every queued issue keeps its claim if and only if no spawn failed. |
| `SchedulerTheorems.RetentionOverRuns` | src/orchestrator/scheduler/reduce.go:76-117 | The same for whole runs; without a failed spawn every queued issue is claimed and scheduled. |
| `SchedulerTheorems.OrphanFate` | src/orchestrator/scheduler/reduce_retry.go:14-39 | An unclaimed retry that fires is stranded exactly when the verdict is to dispatch, rescheduled one attempt on when it is to try again, else released. |
| `SchedulerTheorems.VerdictFate` | src/orchestrator/scheduler/transitions.go:36-49 | The same for one verdict: `claimFromRetry` refuses, and no effect follows. |
| `SchedulerTheorems.StrandedForever` | src/orchestrator/scheduler/eligibility.go:27-50 | A stranded entry survives any further run unchanged and is never claimed, running or spawned again. |
| `SchedulerTheorems.StrandedUseSlots` | src/orchestrator/scheduler/slots.go:29-48 | Each stranded entry takes one global slot away. |
| `SchedulerTheorems.FireUnfolds` | src/orchestrator/scheduler/scheduler.go:205-222 | A fire under a valid workflow is one fetch and one verdict on it. |
| `SchedulerTheorems.TraceCapped` | src/orchestrator/scheduler/slots.go:29-36 | Tracked issues never exceed the highest limit any fold of the trace ran under. |
| `SchedulerTheorems.FoldCapped` | src/orchestrator/scheduler/reduce_dispatch.go:14-46 | No single fold of a run lifts the tracked count above the larger of its old value and the limit in force. |
| `SchedulerTheorems.RunCapped` | src/orchestrator/scheduler/slots.go:16-48 | Every published state of a run is within the highest limit so far, across reloads. |
| `SchedulerTheorems.ReclaimNeverStarved` | src/orchestrator/scheduler/slots.go:16-25 | A retry that fires under a reloaded limit as high as any before it passes the global test; a retry it puts off found its own state full. |
| `SchedulerTheorems.ExitFold` | src/orchestrator/scheduler/reduce.go:60-73 | A worker exit demotes and queues whatever attempt runs; the queued number follows on from it exactly when the exit was clean or its own. |
| `SchedulerTheorems.ExitIgnoresAttempt` | src/orchestrator/scheduler/scheduler.go:182-185 | The same through the shell: the handle goes without a kill, whichever worker the exit came from. |
| `SchedulerFleet.StaleLosesHandle` | src/orchestrator/scheduler/scheduler.go:182-185 | An exit for an issue that another worker has taken over leaves that worker alive with no handle. |
| `SchedulerFleet.StraysExactly` | src/orchestrator/scheduler/scheduler.go:150-193 | After a run no worker has been lost in this way if and only if no such exit arrived in it. |
| `SchedulerFleet.HeldExactly` | src/orchestrator/scheduler/effects_exec.go:86-118 | At every point of a run each live worker has its handle if and only if no such exit arrives. |
| `SchedulerFleet.OneWorkerEach` | src/orchestrator/scheduler/effects_exec.go:86-118 | Without such an exit no issue has two live workers. |
| `SchedulerFleet.OneWorkerExactly` | src/orchestrator/scheduler/effects_exec.go:86-118 | No issue ever has two live workers if and only if none gets a handle again while a lost worker of its own is alive. |
| `SchedulerWitness.StrandedHappens` | src/orchestrator/scheduler/reduce.go:76-86 | In every world with one eligible issue and a failing spawner, a tick, the timer and the fire strand the issue. |
| `SchedulerWitness.StrandedExample` | src/orchestrator/scheduler/reduce_retry.go:14-39 | Such a world, written out. |
| `SchedulerWitness.TwoLiveWorkers` | src/orchestrator/scheduler/effects_exec.go:103-118 | In every world with one eligible issue and a spawner that works, a stall, a retry and the late exit of the killed worker end with two live workers for it. |
| `SchedulerWitness.CrowdExample` | src/orchestrator/scheduler/effects_exec.go:103-118 | Such a world, written out. |
| `SchedulerDispatch.SortCandidatesCorrect` | src/orchestrator/scheduler/eligibility.go:61-83 | The dispatch order is a sorted, stable permutation of the candidates. |
| `SchedulerDispatch.FilterEligibleIs` | src/orchestrator/scheduler/eligibility.go:13-50 | Exactly the eligible candidates pass. |
| `SchedulerDispatch.QueueEligible` | src/orchestrator/scheduler/reduce_dispatch.go:14-15 | The queue holds exactly the eligible candidates. |
| `SchedulerDispatch.PassedOver` | src/orchestrator/scheduler/reduce_dispatch.go:23-46 | Behind an issue left unclaimed nobody of its state wins, and its state's or the global slots were used up. |
| `SchedulerDispatch.WinnersFit` | src/orchestrator/scheduler/slots.go:52-64 | The winners of a state fit under its cap on top of what used it. |
| `SchedulerDispatch.WinnersClaim` | src/orchestrator/scheduler/transitions.go:22-32 | The pass claims exactly the winners, each once, none of them queued, within the global slots. |
| `SchedulerDispatch.GreedyDispatch` | src/orchestrator/scheduler/reduce_dispatch.go:14-46 | The whole pass: order, eligibility, one claim per ID, a prefix per state, why anything was left out, and the caps. |
| `Order.StrLeIs` | src/orchestrator/scheduler/eligibility.go:61-83 | The string order is the byte-wise one: a prefix first, else the smaller byte at the first difference. |
| `SchedulerFields.LowerIs` | src/orchestrator/scheduler/eligibility.go:86-92 | Lower-casing keeps a name up to the case of its letters, leaves no capital, and tells apart exactly the names that differ otherwise. |
| `SchedulerFields.FitIs` | src/orchestrator/scheduler/eligibility.go:27-57 | An issue is eligible if and only if it is named, titled, in an active and no terminal state whatever the case, untracked, and not a todo with an unfinished blocker. |
| `SchedulerFields.SortedByRank` | src/orchestrator/scheduler/eligibility.go:61-83 | The dispatch order on the fields: given priority before none, smaller first, then older, then by identifier; a stable permutation. |
| `SchedulerFields.DispatchByFields` | src/orchestrator/scheduler/reduce_dispatch.go:14-46 | For any candidates: exactly the winners are claimed and revalidated as first attempts; they are fit, distinct, in rank order and within both caps; any fit issue left out finds its state full or no global slot, with the issues that took them ranking in front of it. |
| `SchedulerCaps.FreshDispatchFits` | src/orchestrator/scheduler/effects_exec.go:35-101 | A dispatch drain, with its revalidations and spawns, lifts no state above the larger of its old count and its cap. |
| `SchedulerCaps.VerdictFits` | src/orchestrator/scheduler/reduce_retry.go:14-39 | Nor does acting on a retry verdict. |
| `SchedulerCaps.RetryDispatchFits` | src/orchestrator/scheduler/slots.go:16-25 | Nor does a whole retry fire. |
| `SchedulerCaps.RelabelLifts` | src/orchestrator/scheduler/reduce_reconcile.go:56-87 | A relabel puts a second issue into a state capped at one. |
| `SchedulerStateCaps.SortIdsCorrect` | src/orchestrator/scheduler/reduce_reconcile.go:65-69 | The refresh visits the requested IDs in ascending order, each as often as requested. |
| `SchedulerStateCaps.RefreshMovesExactly` | src/orchestrator/scheduler/reduce_reconcile.go:56-87 | A refresh changes who runs in a state by exactly the issues it moves out and those it relabels into it. |
| `SchedulerStateCaps.RefreshExceeds` | src/orchestrator/scheduler/reduce_reconcile.go:66-87 | It takes a state above its cap if and only if it relabels in more than it moves out plus the room left. |
| `SchedulerStateCaps.TickUnfolds` | src/orchestrator/scheduler/reduce.go:43-54 | A tick is the stall pass, then one refresh of what still runs, then a dispatch pass if the workflow is valid. |
| `SchedulerStateCaps.HandleFits` | src/orchestrator/scheduler/scheduler.go:150-222 | Any input adds to a state at most its relabels, or fills it up to its cap. |
| `SchedulerStateCaps.RunStateCapped` | src/orchestrator/scheduler/slots.go:52-75 | Over every run a state exceeds its caps only by relabels. |
| `SchedulerStateCaps.SteadyRunCapped` | src/orchestrator/scheduler/slots.go:52-75 | Without relabels it never has more running issues than its highest cap. |
| `SchedulerReconcile.KillRetryTrack` | src/orchestrator/scheduler/reduce_reconcile.go:91-100 | Killing and requeueing touches one issue: its worker goes, its claim stays, the next attempt is queued and armed. |
| `SchedulerReconcile.StallByRule` | src/orchestrator/scheduler/reduce_reconcile.go:24-51 | With a positive timeout each issue is killed and requeued exactly when it is stalled, independently of the others; else nothing happens. |
| `SchedulerReconcile.RefreshByRule` | src/orchestrator/scheduler/reduce_reconcile.go:56-87 | Each requested issue is released, relabelled or requeued once, as the last report about it says; no other issue changes. |
| `SchedulerReconcile.LastByIdIs` | src/orchestrator/scheduler/reduce_reconcile.go:57-60 | The last of several reports about an issue counts. |
| `SchedulerReconcile.WorkspacesExactly` | src/orchestrator/scheduler/reduce_reconcile.go:72-80 | A refresh removes the workspace of exactly the running issues it asked about that are reported finished. |
| `SchedulerRetries.ExitByRule` | src/orchestrator/scheduler/reduce.go:60-73 | An exit of a running issue queues it with its claim, a second after a clean exit, else with the error and the backoff of the attempt after the exit's; the timer has the entry's delay; no other issue changes. |
| `SchedulerRetries.SpawnFailedByRule` | src/orchestrator/scheduler/reduce.go:76-86 | A failed spawn gives up the claim and queues the issue with the error and the backoff of the next attempt. |
| `SchedulerRetries.SpawnedByRule` | src/orchestrator/scheduler/transitions.go:52-61 | A spawn that worked makes the issue run the attempt asked for, from the start of its session. |
| `SchedulerRetries.FindIssueIs` | src/orchestrator/scheduler/reduce_retry.go:53-60 | The search gives the first issue with the ID, if there is one. |
| `SchedulerRetries.SpawnFate` | src/orchestrator/scheduler/effects_exec.go:86-101 | Carrying out a spawn calls the spawner once, keeps its handle, and leaves the issue running or waiting with the next attempt's backoff and a running timer. |
| `SchedulerRetries.RetryFate` | src/orchestrator/scheduler/reduce_retry.go:14-39 | After any run, a fire under a valid workflow by the tracker's answer: a failed fetch puts the retry off; an issue missing, finished or inactive is forgotten; a full scheduler or state puts it off; else a claimed one is spawned once, as listed, at the same attempt, and an unclaimed one stays. |
| `SchedulerRetries.DeferFate` | src/orchestrator/scheduler/scheduler.go:205-222 | A fire under an invalid workflow leaves the entry as it was, due in a second, with its timer running again. |
| `SchedulerRetries.FreshFate` | src/orchestrator/scheduler/reduce_dispatch.go:51-64 | A claimed issue is spawned if and only if a second look finds it active and not finished; else it is forgotten. |
| `SchedulerRetries.RefreshFate` | src/orchestrator/scheduler/effects_exec.go:47-57 | An answered refresh treats each issue asked about by its last report, and no other; a failed one changes nothing. |
| `SchedulerTimes.QueuedTimed` | src/orchestrator/scheduler/reduce.go:60-117 | Whatever event queues an issue, it waits from then on for the backoff of its own attempt, or a second, the latter exactly after a clean exit. |
| `SchedulerTimes.ArmedAsQueued` | src/orchestrator/scheduler/reduce.go:108-117 | And its timer is armed once, for that attempt and that delay. |
| `SchedulerTimes.DelaysOverRuns` | src/orchestrator/scheduler/retry.go:9-31 | After any run each queued entry was queued as it is by some fold of the run, with the delay of its own attempt under that fold's configuration, a second after a clean exit, or pushed back by a second. |
| `SchedulerTimes.StallsExactly` | src/orchestrator/scheduler/reduce_reconcile.go:24-51 | A tick kills a worker if and only if the timeout is positive and its last report, else its start, is longer ago. |
| `SchedulerTimes.ReportRecorded` | src/orchestrator/scheduler/reduce.go:90-105 | A report records its event, time, message, rate limit and finished turn in the record of its running issue, and moves nothing. |
| `SchedulerTimes.ReportPutsOffStall` | src/orchestrator/scheduler/transitions.go:147-158 | After a report at a time other than zero, a tick kills the worker if and only if that time is longer ago than a positive timeout. |
| `SchedulerTimes.ConfigOverRuns` | src/orchestrator/scheduler/scheduler.go:265-287 | After any run the configuration is the last valid one read, and what the last input folded was folded under it. |
| `SchedulerUsage.Snapshot` | src/orchestrator/scheduler/state.go:144-163 | The snapshot adds the live accumulators to the lifetime totals, in any order of visiting them. |
| `SchedulerUsage.ReleaseAccounts` | src/orchestrator/scheduler/transitions.go:110-126 | Releasing a claim leaves the snapshot as it was. |
| `SchedulerUsage.ReduceAccounts` | src/orchestrator/scheduler/transitions.go:162-198 | Every event moves the snapshot by what it reports for a running issue and by nothing else; accumulators stay within Claimed. |
| `SchedulerUsage.TraceConserves` | src/orchestrator/scheduler/reduce.go:90-105 | The same summed along a trace. |
| `SchedulerUsage.RunConserves` | src/orchestrator/scheduler/state.go:144-163 | After any run the snapshot is the sum of all reports made while their issue ran. |
| `SchedulerReports.ObserveExplains` | src/platform/metrics/metrics.go:49-60 | One more report of a thread adds what it exceeds the thread's last one by, and becomes its last. |
| `SchedulerReports.SteadyClimb` | src/platform/metrics/metrics.go:49-60 | Reports of one thread that never fall add up to the last of them. |
| `SchedulerReports.ReportTally` | src/orchestrator/scheduler/transitions.go:162-198 | A report shows the accumulated totals in its attempt's record, and adds a positive turn time. |
| `SchedulerReports.RunReports` | src/orchestrator/scheduler/transitions.go:162-175 | After any run an issue's accumulator is explained by the reports made for it while it ran since it was last claimed. |
| `SchedulerLoops.RetryQueuedCount` | src/orchestrator/scheduler/slots.go:40-48 | The loop counts the queued issues that are not running. |
| `SchedulerLoops.RunningInState` | src/orchestrator/scheduler/slots.go:67-75 | The loop counts the running issues of a state. |
| `SchedulerLoops.GlobalSlots` | src/orchestrator/scheduler/slots.go:29-36 | Computes the free global slots. |
| `SchedulerLoops.ReclaimHasSlot` | src/orchestrator/scheduler/slots.go:16-25 | Computes the retry slot test. |
| `SchedulerLoops.NormalizedSet` | src/orchestrator/scheduler/eligibility.go:86-92 | The loop builds the set of lower-cased states. |
| `SchedulerLoops.EligibleCandidates` | src/orchestrator/scheduler/eligibility.go:13-25 | The loop computes the filter of `FilterEligibleIs`. |
| `SchedulerLoops.CountByState` | src/orchestrator/scheduler/reduce_dispatch.go:18-21 | The map counts the running issues of every state. |
| `SchedulerLoops.AllocateSlots` | src/orchestrator/scheduler/reduce_dispatch.go:23-46 | The allocation loop computes the selection that `PassedOver` and `GreedyDispatch` are about. |
| `SchedulerLoops.DispatchPass` | src/orchestrator/scheduler/reduce_dispatch.go:14-46 | The whole of `reduceCandidates`. |
| `SchedulerLoops.FindFirst` | src/orchestrator/scheduler/reduce_retry.go:53-60 | The search gives the first issue with the ID. |
| `SchedulerLoops.ResolveRetry` | src/orchestrator/scheduler/reduce_retry.go:14-60 | The retry event, with its search and its slot test, gives the verdict and effects that `OrphanFate` is about. |
| `SchedulerLoops.StallPass` | src/orchestrator/scheduler/reduce_reconcile.go:24-51 | The loop computes the pass of `StallByRule`, in ID order. |
| `SchedulerLoops.ById` | src/orchestrator/scheduler/reduce_reconcile.go:57-60 | The map holds the last issue reported for each ID. |
| `SchedulerLoops.RefreshPass` | src/orchestrator/scheduler/reduce_reconcile.go:56-87 | The loop computes the refresh of `RefreshByRule` and `RefreshMovesExactly`. |
| `SchedulerLoops.ReduceEvent` | src/orchestrator/scheduler/reduce.go:14-39 | The reducer runs these loops for every event and computes `Reduce`. |
| `SchedulerShell.Scheduler.constructor` | src/orchestrator/scheduler/scheduler.go:101-127 | A new scheduler is at the start of a run and satisfies the invariant. |
| `SchedulerShell.Scheduler.ArmTimer` | src/orchestrator/scheduler/effects_exec.go:130-142 | Stops the issue's running timer, if any, and starts a new one. |
| `SchedulerShell.Scheduler.CancelTimer` | src/orchestrator/scheduler/effects_exec.go:144-149 | Stops and forgets the issue's timer. |
| `SchedulerShell.Scheduler.KillWorker` | src/orchestrator/scheduler/effects_exec.go:103-118 | Drops the handle and ends that worker only. |
| `SchedulerShell.Scheduler.Step` | src/orchestrator/scheduler/scheduler.go:226-233 | The in-place fold and drain computes the specification's `Step`. |
| `SchedulerShell.Scheduler.Exec` | src/orchestrator/scheduler/effects_exec.go:12-33 | Carrying out an effect in place computes the specification's `Exec`. |
| `SchedulerShell.Scheduler.Spawn` | src/orchestrator/scheduler/effects_exec.go:86-101 | Spawning keeps the handle if there is one and feeds success or failure back. |
| `SchedulerShell.Scheduler.FetchCandidates` | src/orchestrator/scheduler/effects_exec.go:35-45 | A failed fetch changes nothing, a successful one is folded. |
| `SchedulerShell.Scheduler.RefreshTracker` | src/orchestrator/scheduler/effects_exec.go:47-57 | The same for a refresh. |
| `SchedulerShell.Scheduler.RetryFetch` | src/orchestrator/scheduler/effects_exec.go:72-84 | A retry fetch is folded with its error when it fails. |
| `SchedulerShell.Scheduler.ReloadConfig` | src/orchestrator/scheduler/scheduler.go:265-287 | An invalid workflow keeps the last good configuration. |
| `SchedulerShell.Scheduler.Tick` | src/orchestrator/scheduler/scheduler.go:197-201 | Reload, then a tick event with the validity of the workflow. |
| `SchedulerShell.Scheduler.DeferRetry` | src/orchestrator/scheduler/scheduler.go:205-222 | Pushes a retry back with its entry and a new timer. |
| `SchedulerShell.Scheduler.HandleRetryFire` | src/orchestrator/scheduler/scheduler.go:205-222 | Under an invalid workflow the retry is pushed back with its entry, else it is folded. |
| `SchedulerShell.Scheduler.WorkerDone` | src/orchestrator/scheduler/scheduler.go:182-185 | Drops the handle of the issue, whichever worker the exit came from, reloads and folds the exit. |
| `SchedulerShell.Scheduler.Turn` | src/orchestrator/scheduler/scheduler.go:150-193 | One turn of the select keeps the invariant and does what the specification says. |
| `SchedulerShell.Scheduler.Run` | src/orchestrator/scheduler/scheduler.go:150-193 | So does any sequence of turns, which carries every theorem about runs over to the object. |
| `Backoff.BackoffExact` | src/orchestrator/scheduler/retry.go:17-31 | The wrapped 64-bit delay is the intended one if and only if the attempt is at most 30, or the cap fits a duration and the attempt is at most 50 or one of 52, 53, 57, 58, 59. |
| `Backoff.BackoffHigh` | src/orchestrator/scheduler/retry.go:17-31 | Above attempt 50 a capped delay is the cap or not positive, and from attempt 61 on it is zero. |
| `Backoff.BackoffMonotone` | src/orchestrator/scheduler/retry.go:17-31 | Up to attempt 50 the delay never falls, is positive and within the cap. |
| `GqlScanner.Scanner.constructor` | src/orchestrator/lineargql/client.go:166-168 | A new scanner stands at the start, outside any definition. |
| `GqlScanner.Scanner.CountAll` | src/orchestrator/lineargql/client.go:166-175 | The loop ends on every string with no index out of range and returns the specified count. |
| `GqlScanner.Scanner.AdvanceLexer` | src/orchestrator/lineargql/client.go:180-212 | Strings, block strings and comments are skipped as specified. |
| `GqlScanner.Scanner.AdvanceDoc` | src/orchestrator/lineargql/client.go:216-246 | One step outside of them. |
| `GqlScanner.Scanner.OpenBrace` | src/orchestrator/lineargql/client.go:248-267 | A brace opens an operation, a body or an object literal, by context. |
| `GqlScanner.Scanner.CloseBrace` | src/orchestrator/lineargql/client.go:269-284 | A closing brace ends the matching one. |
| `GqlScanner.Scanner.ConsumeIdent` | src/orchestrator/lineargql/client.go:286-302 | A word is taken whole; an operation keyword between definitions counts. |
| `GqlCounting.TokenTakes` | src/orchestrator/lineargql/client.go:180-302 | Scanning the spelling of any token from any context moves the document state as that token should. |
| `GqlCounting.GapPasses` | src/orchestrator/lineargql/client.go:180-246 | Blanks and comments change nothing in the document, and leave the scanner in a comment exactly when one is hanging. |
| `GqlCounting.PiecesTake` | src/orchestrator/lineargql/client.go:166-302 | The same for any legible text, with any blanks between its tokens and any comments, a comment ended by a lone carriage return included if a line feed follows before the next token. |
| `GqlCounting.DefinitionAdds` | src/orchestrator/lineargql/client.go:216-302 | An operation adds one and a fragment nothing, whatever is nested inside. |
| `GqlCounting.DocumentAdds` | src/orchestrator/lineargql/client.go:216-302 | A document adds the number of its operations. |
| `GqlCounting.CountsOperations` | src/orchestrator/lineargql/client.go:166-175 | The count of any legible spelling of a document is its number of operation definitions. |
| `GqlCounting.SpacedLegible` | src/orchestrator/lineargql/client.go:180-246 | Writing a blank before every token is such a spelling. |
| `GqlCounting.PrintThenCount` | src/orchestrator/lineargql/client.go:108-175 | Printing a document and counting gives back its number of operations. |
| `GqlLimits.ScannerBlockEnd` | src/orchestrator/lineargql/client.go:180-212 | Inside a block string the scanner stops behind the first triple quote. |
| `GqlLimits.BlockEndExactly` | src/orchestrator/lineargql/client.go:180-212 | That is where the specification ends the string if and only if no escaped triple quote is inside. |
| `GqlLimits.EscapeMiscounts` | src/orchestrator/lineargql/client.go:166-212 | A document with one operation and an escaped triple quote counts as two. |
| `GqlLimits.EscapeIsInside` | src/orchestrator/lineargql/client.go:180-212 | To the specification that source has one block string with the escape inside. |
| `GqlLimits.ScannerCommentEnd` | src/orchestrator/lineargql/client.go:180-212 | The scanner leaves a comment behind the first line feed, or never. |
| `GqlLimits.CommentEndExactly` | src/orchestrator/lineargql/client.go:180-212 | That is where the specification ends the comment if and only if no carriage return comes before it. |
| `GqlLimits.HangingExactly` | src/orchestrator/lineargql/client.go:180-246 | Blanks and comments leave the scanner in a comment if and only if one of those comments ends in a carriage return and no line feed follows it. |
| `GqlLimits.LoneReturnSwallows` | src/orchestrator/lineargql/client.go:180-212 | Whatever stands between a carriage return that ends a comment and the next line feed is skipped, and everything when there is none. |
| `GqlLimits.LoneReturnLoses` | src/orchestrator/lineargql/client.go:180-246 | If legible tokens stand there, reading them would move the document by exactly those tokens, and the scanner does not. |
| `GqlLimits.LoneReturnMiscounts` | src/orchestrator/lineargql/client.go:180-212 | A document whose one operation follows such a comment counts none. |
| `FileRelay.ApplyValid` | src/client/runtime/filerelay.go:109-253 | Every step (register, watch, append, notification, sweep, read, accepted or refused send, unwatch) keeps the relay invariant. |
| `FileRelay.RunValid` | src/client/runtime/filerelay.go:109-253 | So does any interleaving of them. |
| `FileRelay.SentExactly` | src/client/runtime/filerelay.go:262-280 | What was broadcast is what was taken off the file if and only if every piece could be encoded. |
| `FileRelay.LossyOverlooks` | src/client/runtime/filerelay.go:109-143 | An append to a registered file that is unwatched, unannounced and not being read leaves unread bytes nobody will look at. |
| `FileRelay.OnlyLossyAppends` | src/client/runtime/filerelay.go:146-253 | No other step does. |
| `FileRelay.AnnouncedExactly` | src/client/runtime/filerelay.go:109-253 | Over every run unread bytes are announced or in the sweep at all times if and only if no such append occurs. |
| `FileRelay.Delivery` | src/client/runtime/filerelay.go:188-253 | After any run the broadcast content is the bytes from the start to the offset exactly when every piece could be encoded; without such an append unread bytes are announced or in the sweep. |
| `FileRelay.MissedStaysMissed` | src/client/runtime/filerelay.go:109-143 | Bytes from the window before the watch are delivered by no run that leaves the file alone. |
| `FileRelay.WindowMisses` | src/client/runtime/filerelay.go:109-143 | Such a window, and the unread bytes nobody will look at, exists for every path and content. |
| `FileRelay.SweepCatchesUp` | src/client/runtime/filerelay.go:188-226 | An uninterrupted sweep with no refusal brings every dirty file to its end. |
| `FileRelay.RegisterLaw` | src/client/runtime/filerelay.go:109-143 | A named path is registered once, clean, at the end its file has then; nothing else changes. |
| `FileRelay.NotifyLaw` | src/client/runtime/filerelay.go:146-171 | A notice marks the file registered under its path and no other. |
| `FileRelay.UnregisterLaw` | src/client/runtime/filerelay.go:93-100 | Forgetting a path ends its registration and watch and no other. |
| `FileRelay.StartsAtEnd` | src/client/runtime/filerelay.go:109-143 | Every entry of a run was made by a registration of its path and frame and starts where the file ended then. |
| `FileRelayShell.Relayer.constructor` | src/client/runtime/filerelay.go:53-68 | A new relay is empty. |
| `FileRelayShell.Relayer.Notified` | src/client/runtime/filerelay.go:146-171 | A write event marks the file of that path. |
| `FileRelayShell.Relayer.Add` | src/client/runtime/filerelay.go:109-143 | Registration at the current size, then the watch; a known or empty path changes nothing. |
| `FileRelayShell.Relayer.Unwatch` | src/client/runtime/filerelay.go:93-100 | Forgets one path. |
| `FileRelayShell.Relayer.UnwatchFrame` | src/client/runtime/filerelay.go:81-90 | Forgets exactly the files of a frame. |
| `FileRelayShell.Relayer.BeginSweep` | src/client/runtime/filerelay.go:188-200 | Takes exactly the dirty files, clearing their marks. |
| `FileRelayShell.Relayer.ReadNext` | src/client/runtime/filerelay.go:201-253 | Reads what lies behind the offset of the next file. |
| `FileRelayShell.Relayer.Finish` | src/client/runtime/filerelay.go:201-226 | Advances the offset after an accepted send and marks the file again after a refused one. |
| `FileRelayShell.Relayer.Sweep` | src/client/runtime/filerelay.go:188-226 | A whole undisturbed sweep is the one of `SweepCatchesUp`. |
| `MergeEnv.OverlayBase` | src/client/runtime/pty_backend.go:340-375 | The first loop keeps the first entry of every key, overridden where asked, and collects the keys. |
| `MergeEnv.MissingKeys` | src/client/runtime/pty_backend.go:340-375 | The second loop finds the override keys the base lacks. |
| `MergeEnv.AppendExtras` | src/client/runtime/pty_backend.go:340-375 | The third loop appends them in the given order. |
| `MergeEnv.MergeEnvironment` | src/client/runtime/pty_backend.go:340-375 | The whole function computes the overlay of the lemmas below. |
| `MergeEnv.MergeLookup` | src/client/runtime/pty_backend.go:340-375 | First-match lookup gives the override, else the base's answer, when no override key contains an equals sign. |
| `MergeEnv.MergeOverridesExactly` | src/client/runtime/pty_backend.go:340-375 | That law holds for all keys if and only if no override key contains one. |
| `MergeEnv.MergeOrder` | src/client/runtime/pty_backend.go:340-375 | For any base: malformed entries and first occurrences in base order, each overridden in place, then an entry per override key the base lacks, ascending. |
| `MergeEnv.FirstsAre` | src/client/runtime/pty_backend.go:340-375 | The positions kept are exactly those of malformed entries and of first occurrences of a key, ascending. |
| `MergeEnv.MalformedSurvive` | src/client/runtime/pty_backend.go:340-375 | Every malformed entry survives, in order, for all inputs. |
| `MergeEnv.NoKeyTwice` | src/client/runtime/pty_backend.go:340-375 | No key appears twice when no override key contains an equals sign. |
| `Order.SortedIs` | src/client/runtime/pty_backend.go:340-375 | Sorting lists every element once, in ascending order. |
| `ClientSessions.PushOk` | src/client/state/reduce_helpers.go:94-110 | Pushing keeps the recency list duplicate-free, at most 16 long and a prefix of the uncapped one, with the frame in front. |
| `ClientSessions.PushIs` | src/client/state/reduce_helpers.go:94-110 | The pushed list is the frame, then the others in their order, cut to 16. |
| `ClientSessions.PopIs` | src/client/state/reduce_helpers.go:114-127 | Popping gives the first listed frame still there and the list behind it, or nothing when none is. |
| `ClientSessions.PopPrefix` | src/client/state/reduce_helpers.go:114-127 | The capped list gives the uncapped list's answer whenever it has one. |
| `ClientSessions.HeadFallback` | src/client/state/reduce_frame_evict.go:41-58 | When the head dies the next one is the most recently left frame still listed, else the root; the cap changes the choice exactly when the uncapped choice had fallen off and is not the root. |
| `ClientSessions.ReduceGood` | src/client/state/reduce.go:16-85 | Every event keeps frames, heads, recency lists and ID freshness well-formed. |
| `ClientSessions.RunGood` | src/client/state/reduce_session.go:38-310 | So does every run from a new state. |
| `ClientTeardown.EvictExact` | src/client/state/reduce_frame_evict.go:18-81 | Evicting a root takes its whole session, any other frame only itself, each with its teardown effects once. |
| `ClientTeardown.StopExact` | src/client/state/reduce_session.go:312-328 | Stopping a session tears down exactly its frames; `KillsExact` says that it kills them. |
| `ClientTeardown.SpawnedExact` | src/client/state/reduce_session_nav.go:11-65 | A completed spawn tears nothing down. |
| `ClientTeardown.TeardownExact` | src/client/state/reduce_tick.go:38-118 | For every event the frames gone are exactly those unregistered, unwatched and released, each once; the only other release is of a crashed frame that stays. |
| `ClientTeardown.KillsExact` | src/client/state/reduce_tick.go:62-118 | A stop, and an exit with code 0, 129, 130, 137 or 143, kills each frame that goes, once; no other event kills. |
| `ClientTeardown.KillsOrdered` | src/client/state/reduce_frame_evict.go:70-81 | A frame is killed before its sandbox is released. |
| `ClientTeardown.RepeatedCrash` | src/client/state/reduce_tick.go:91-118 | A crash exit of a stopped frame does nothing, and the first crash exit of a Claude root stops it. |
| `ClientJobs.ClaudeGuards` | src/client/driver/claude_event.go:186-304 | A root frame starts a guarded job exactly when one is called for and its flag is down; the flag is then up until the job's own result. No other frame starts one. |
| `ClientJobs.ClaudeReacts` | src/client/driver/claude.go:234-272 | Claude's root driver is stopped by a sign of its end, restarted by a sign of work, and asks for a frame exactly when its plan is clicked; its drivers above the root keep their flags and status and ask for nothing. |
| `ClientJobs.RunJobs` | src/client/state/reduce_helpers.go:176-306 | In every run the flag of each kind is up exactly while its one job is outstanding, for all live Claude frames. |
| `ClientJobs.OneJobOfAKind` | src/client/driver/claude_tick.go:25-84 | At most one transcript, branch and summary job is outstanding per live Claude frame, and one exactly while its flag is up. |
| `ClientJobs.ReduceIds` | src/client/state/reduce_helpers.go:262-306 | Job IDs are never reused. |
| `ClientJobs.JobsExactly` | src/client/state/reduce_helpers.go:262-306 | Every event: the jobs listed are those before it without the one delivered, and exactly those it starts, under the ID, frame and kind they start with. |
| `ClientJobs.DeliveredOnce` | src/client/state/reduce_job.go:7-33 | After a result is delivered, whatever happens, another for the same job does nothing. |
| `ClientJobs.DeliveredToRequester` | src/client/state/reduce_job.go:7-33 | A result changes no frame but the one that asked. |
| `ClientRequests.SetHeadLaw` | src/client/state/reduce_frame.go:12-37 | A frame of the session becomes its head and the old head the most recent; nothing else changes, the request is granted and a change published. Any other request is refused without effect. |
| `ClientRequests.PushLaw` | src/client/state/reduce_session.go:114-208 | An accepted push puts one new frame on top as head and its own target, with the launch's driver and options, the old head most recent, and asks for its spawn; else a refusal without effect. |
| `ClientRequests.CreateLaw` | src/client/state/reduce_session.go:38-86 | An accepted create opens one session with one frame, both new, the frame its head and its own target. |
| `ClientRequests.ForkLaw` | src/client/state/reduce_session.go:210-310 | An accepted fork opens such a session with no target yet and leaves its origin alone. |
| `ClientRequests.StopLaw` | src/client/state/reduce_session.go:312-328 | A stop takes exactly that session away, grants the request once and publishes. |
| `ClientRequests.EvictLaw` | src/client/state/reduce_frame_evict.go:18-58 | With its root a session goes; any other frame leaves the rest in order, and the head as it was unless it was the head, which falls back to the first listed frame still there, else the root; an unknown frame changes nothing. |
| `ClientRequests.VanishedLaw` | src/client/state/reduce_tick.go:38-44 | A frame that vanished is evicted. |
| `ClientRequests.SpawnFailedLaw` | src/client/state/reduce_session_nav.go:71-84 | A failed spawn evicts its frame and refuses the request of whoever made one. |
| `ClientRequests.SpawnedLaw` | src/client/state/reduce_session_nav.go:11-65 | A finished spawn writes the subsystem on its frame, lets a bootstrapped root react, keeps the rest of all sessions, registers the frame, publishes and grants. |
| `ClientRequests.SpawnedNowhere` | src/client/state/reduce_session_nav.go:11-19 | One for a frame not in its session changes nothing. |
| `ClientRequests.ExitedLaw` | src/client/state/reduce_tick.go:91-118 | A deliberate exit evicts; a crash of a stopped frame does nothing; any other crash steps the driver, keeps every frame and releases the sandbox last. |
| `ClientRequests.StepDriverLaw` | src/client/state/reduce_helpers.go:176-215 | A driver step changes that driver to what its Step returns, nothing else of any session, and sends on each effect it returned, for its frame and session. |
| `ClientRequests.StepDriversInTurn` | src/client/state/reduce_helpers.go:324-359 | Several drivers are stepped in turn. |
| `ClientRequests.AnnotateLaw` | src/client/state/reduce_event.go:39-66 | A note writes a handle over the frame's, unless it has none. |
| `ClientRequests.DriveLaw` | src/client/state/reduce_event.go:10-85 | An event that steps one driver changes that driver only. |
| `ClientRequests.DriveUnfolds` | src/client/state/reduce_event.go:10-85 | Such an event is its note, its drives, and then the requests its drivers made, in turn; it is published if it persists. |
| `ClientRequests.ResultLaw` | src/client/state/reduce_job.go:7-33 | A result goes to the frame that asked, as the result of that kind of job. |
| `ClientRequests.ResolveOne` | src/client/state/reduce_session.go:131-147 | A driver's push does what the same request would do, and nothing where it would be refused. |
| `ClientRequests.PushesAsRequests` | src/client/state/reduce_session.go:131-147 | Resolving any effects leads to the state the same push requests would lead to, one by one. |
| `ClientReducer.SessionMap.Clone` | src/client/state/clone.go:10-20 | The loop makes a new map with the same entries. |
| `ClientReducer.FindFrame` | src/client/state/reduce_helpers.go:148-155 | The search over sessions in any order finds the owner and index of a frame exactly when it is live. |
| `ClientReducer.PostProcessAll` | src/client/state/reduce_helpers.go:262-306 | The loop stamps the effects and records the jobs, sharing the map. |
| `ClientReducer.StepFrameDriver` | src/client/state/reduce_helpers.go:176-215 | Computes `StepDriver`; writes a new map and slice, or nothing; the state given is untouched. |
| `ClientReducer.PushRecent` | src/client/state/reduce_helpers.go:94-110 | The loop computes the pushed list of `PushOk`. |
| `ClientReducer.PopRecent` | src/client/state/reduce_helpers.go:114-127 | The loop computes the popped frame and list of `PopIs`. |
| `ClientReducer.TeardownFrames` | src/client/state/reduce_frame_evict.go:29-39 | The loop emits each frame's teardown in order. |
| `ClientReducer.EvictRoot` | src/client/state/reduce_frame_evict.go:29-39 | Drops the session from a new map and tears down its frames. |
| `ClientReducer.EvictFrame` | src/client/state/reduce_frame_evict.go:18-58 | Computes the eviction of `EvictExact` and `HeadFallback`; the state given is untouched. |
| `ClientReducer.CreateSession` | src/client/state/reduce_session.go:38-86 | Computes the create event; the state given is untouched. |
| `ClientReducer.PushDriverInternal` | src/client/state/reduce_session.go:151-208 | Its two writes, through a map and a slice made for them; a launch that fails in between leaves the new frame in the state returned, and the state given is untouched. |
| `ClientReducer.PushDriverRef` | src/client/state/reduce_session.go:114-127 | Computes the push event: on failure the state that came in is the one that goes on. |
| `ClientReducer.ResolveAll` | src/client/state/reduce_session.go:131-147 | The loop over a driver's effects resolves its pushes, dropping those that fail. |
| `ClientReducer.ForkSession` | src/client/state/reduce_session.go:210-310 | Computes the fork event; the state given is untouched. |
| `ClientReducer.StopSession` | src/client/state/reduce_session.go:312-328 | Computes the stop event; the state given is untouched. |
| `ClientReducer.SetHeadFrame` | src/client/state/reduce_frame.go:12-37 | Computes the head change; the state given is untouched. |
| `ClientReducer.AnnotateFrame` | src/client/state/reduce_session_nav.go:24-36 | Writes a field of one frame into a new map and slice, or returns the same map when nothing changes. |
| `ClientReducer.BootFrame` | src/client/state/reduce_helpers.go:217-257 | Bootstraps a root frame's driver; the state given is untouched. |
| `ClientReducer.FrameSpawned` | src/client/state/reduce_session_nav.go:11-65 | Computes the spawned event with its subsystem write and bootstrap; the state given is untouched. |
| `ClientReducer.SpawnFailed` | src/client/state/reduce_session_nav.go:71-84 | Computes the failed spawn; the state given is untouched. |
| `ClientReducer.CommandExited` | src/client/state/reduce_tick.go:91-118 | Computes the command exit; the state given is untouched. |
| `ClientReducer.StepAll` | src/client/state/reduce_helpers.go:324-359 | The loop steps the drivers one after the other. |
| `ClientReducer.DriveFrames` | src/client/state/reduce_event.go:10-85 | Computes ticks, hooks, subsystem and file events; the state given is untouched. |
| `ClientReducer.JobResult` | src/client/state/reduce_job.go:7-33 | Computes the delivery of a job result; the state given is untouched. |
| `ClientReducer.ReduceRef` | src/client/state/reduce.go:16-85 | For every event: computes `Reduce`, leaves the map and slices given unwritten, and returns either that same map with the same sessions or a map that did not exist before. |
| `ClientDriver.CommonState.constructor` | src/client/driver/claude.go:141-148 | A new driver state has no branch request in flight. |
| `ClientDriver.CommonState.HandleTick` | src/client/driver/common_state.go:83-114 | A tick starts a branch job exactly when one is wanted and none is in flight, and moves the flag as the job theorem's driver step does. |
| `ClientDriver.CommonState.ApplyBranchResult` | src/client/driver/common_state.go:119-131 | A result always frees the flag; only a named branch refreshes the age. |
| `ClientRuntime.OutsideFresh` | src/client/state/reduce_session.go:38-310 | Events from outside the spawn protocol spawn only new frames and answer no earlier spawn. |
| `ClientRuntime.ApplyOk` | src/client/runtime/interpret_spawn.go:54-273 | Each step of the loop keeps the protocol invariant. |
| `ClientRuntime.RunOk` | src/client/runtime/interpret_spawn.go:54-273 | The protocol invariant holds after every interleaving of events, spawn ends and completions. |
| `ClientRuntime.SandboxConservation` | src/client/runtime/interpret_spawn.go:101-273 | Each closure acquired is in exactly one place: held for a live frame, in an undelivered completion, run, or dropped by a panic; none runs twice and the held keys are live frames. |
| `ClientRuntime.LostExactlyByPanics` | src/client/runtime/interpret_spawn.go:147-159 | After any run the closures lost are exactly those held by spawns that panicked, and none of these was run or is held. |
| `ClientRuntime.OneAnswer` | src/client/runtime/interpret_spawn.go:172-273 | Each accepted create, push or fork has no answer while its spawn is pending and exactly one, for its own request, afterwards. |
| `ClientOutcomes.AnswersTrue` | src/client/runtime/interpret_spawn.go:54-273 | After any run a frame's answer says ok if and only if its spawn came up, not having failed, panicked or been refused, and its session still had the frame when the completion was handled. |
| `ClientOutcomes.DispatchHolds` | src/client/runtime/cleanup.go:46-58 | An event stops the holding of exactly the closures of the frames it releases. |
| `ClientOutcomes.CompleteHolds` | src/client/runtime/interpret_spawn.go:172-198 | A completion whose frame is still there has its closure held for that frame, and no other closure moves. |
| `ClientOutcomes.RunOwned` | src/client/runtime/interpret_spawn.go:101-137 | After any run each closure held or on its way was acquired by the spawn of the frame it is for, and as many were acquired as spawns ended holding one. |
| `ClientRuntime.ReconcileIs` | src/client/runtime/runtime.go:585-612 | Deleting what has gone and saving what is left makes the store the sessions in memory, whether or not an effect saved before. |
| `ClientRuntime.DispatchStore` | src/client/runtime/runtime.go:524-612 | A dispatch that starts with the store equal to memory ends with it equal. |
| `ClientRuntime.StoreAgrees` | src/client/runtime/runtime.go:585-612 | So it is between any two steps of a run, although Save removes nothing and an empty state is not saved. |
| `ClientLoop.Loop.InvokeFrameCleanup` | src/client/runtime/cleanup.go:46-58 | Runs the frame's closure if one is held, and forgets it. |
| `ClientLoop.Loop.constructor` | src/client/runtime/runtime.go:239-280 | A new loop is at the start of a run. |
| `ClientLoop.Loop.Execute` | src/client/runtime/interpret.go:19-98 | Executing an effect changes the protocol state as specified. |
| `ClientLoop.Loop.Save` | src/client/runtime/persist.go:36-53 | Saving upserts every session and removes none. |
| `ClientLoop.Loop.DeleteGone` | src/client/runtime/runtime.go:596-603 | The loop deletes exactly the sessions of the old map that the new one lacks. |
| `ClientLoop.Loop.WriteDelta` | src/client/runtime/runtime.go:589-612 | From a store equal to the old sessions, saved over or not, the deletions and the save leave exactly the new ones, the empty state included. |
| `ClientLoop.Loop.ReconcilePersist` | src/client/runtime/runtime.go:585-612 | Compares the two maps by reference; that comes to the same as comparing the sessions in them, and the store agrees with memory afterwards. |
| `ClientLoop.Loop.SettleState` | src/client/runtime/runtime.go:524-532 | Takes the new state, executes the effects in order, reconciles against the old map. |
| `ClientLoop.Loop.Dispatch` | src/client/runtime/runtime.go:524-532 | Calls the reducer, settles its result, and leaves the store equal to memory. |
| `ClientLoop.Loop.SpawnTargetAlive` | src/client/runtime/interpret_spawn.go:201-212 | The search finds the frame in its session exactly when it is there. |
| `ClientLoop.Loop.TakeClosure` | src/client/runtime/interpret_spawn.go:172-198 | The closure goes to the live frame or is run. |
| `ClientLoop.Loop.HandleSpawnFailed` | src/client/runtime/interpret_spawn.go:54-60 | A reported failure is reduced as an event, once. |
| `ClientLoop.Loop.HandleSpawnComplete` | src/client/runtime/interpret_spawn.go:172-273 | A live target takes over the closure and the spawned event is reduced; a dead one has its closure run and the failure reduced, which answers the request. |
| `ClientLoop.Loop.SpawnFrameWindow` | src/client/runtime/interpret_spawn.go:54-137 | Each way a spawn can end leaves its closure where the protocol says. |
| `ClientLoop.Loop.FinishSpawn` | src/client/runtime/interpret_spawn.go:101-137 | A panic loses the closure, a backend refusal runs it, else it travels with the completion. |
| `ClientLoop.Loop.Turn` | src/client/runtime/runtime.go:448-532 | One turn of the loop does what the protocol says and keeps its invariant. |
| `ClientLoop.Loop.Run` | src/client/runtime/runtime.go:448-532 | So does any list of turns, which carries every theorem about runs over to the object; the store agrees with memory after each list. |
| `Surface.SubscribeOk` | src/client/state/reduce_surface.go:82-110 | Subscribing keeps the subscription invariant, whether accepted, refused or repeated. |
| `Surface.UnsubscribeOk` | src/client/state/reduce_surface.go:112-126 | So does unsubscribing. |
| `Surface.ConnClosedOk` | src/client/state/reduce_conn.go:14-37 | So does closing a connection. |
| `Surface.RunOk` | src/client/runtime/terminal_relay.go:71-203 | Over every run: at most 8 per connection, no empty set, Starts minus Stops is 1 exactly when subscribed and else 0, relay keys are subscribed, chunks numbered from 0. |
| `Surface.StepByRule` | src/client/state/reduce_surface.go:82-126 | After any run, any step: which keys are subscribed and which have a stream, exactly; a subscribe is granted below 8, and a stream already there stays. |
| `Surface.ChunkPosted` | src/client/runtime/terminal_relay.go:154-203 | Every output of an open stream is posted as one chunk with the next number. |
| `Surface.LateNoticeCutsExactly` | src/client/runtime/ipc.go:187-191 | After any run, handling a close notice takes a stream out of the relay if and only if its key is there; that stream is open, subscribed, and newer than the ended one that posted the notice. |
| `Surface.LateNoticeHappens` | src/client/runtime/terminal_relay.go:154-203 | Such a run exists for every key: subscribe, unsubscribe, the stream ends, subscribe again, and the notice cuts off the second stream. |
| `Surface.TerminalRelay.SubscribeStream` | src/client/runtime/terminal_relay.go:71-104 | Adds a stream for a new key, if the backend accepts. |
| `Surface.TerminalRelay.UnsubscribeStream` | src/client/runtime/terminal_relay.go:108-122 | Removes the key. |
| `Surface.TerminalRelay.CloseConn` | src/client/state/reduce_conn.go:14-37 | The loop stops exactly the connection's subscriptions, in some order. |
| `Surface.TerminalRelay.FanOut` | src/client/runtime/terminal_relay.go:154-203 | One event of a stream: a numbered chunk, or its end, with or without the close notice getting through. |

## Left out

- Worker processes, goroutines, channels and the wall clock: inputs arrive in any order and `now` is arbitrary; the coalescing of refreshes, the poll interval and shutdown are not modelled.
- Token counters, runtimes and attempt numbers are unbounded integers; 64-bit wrap-around is modelled for the backoff delay only.
- SchedulerLoops.NormalizedSet: state names are lower-cased for ASCII letters only.
- `sort.SliceStable` and `sort.Strings` are functions proved to be a stable sort and an ascending listing; the library's algorithm is not modelled.
- Log lines, phases, process IDs and other fields that no decision reads.
- Validation of GraphQL variables, the HTTP call, and JSON, TOML, YAML and Liquid decoding.
- GqlCounting.CountsOperations: assumes tokens spelled as the GraphQL specification allows, block strings without an escaped triple quote, and a line feed between a comment ended by a lone carriage return and the next token; GqlLimits says what happens otherwise.
- GqlCounting.PiecesTake: the same spellings.
- GqlScanner.Scanner.CountAll: characters stand for the bytes of the source.
- FileRelay.Delivery: files only grow and can be read; truncation and read errors are not modelled.
- FileRelayShell.Relayer.Sweep: states the sweep without interruptions or refusals; other interleavings are covered by the steps of FileRelay.
- SchedulerTimes.ArmedAsQueued: states the delay on the timer effect; the shell's timers carry no clock and may elapse at any point.
- Session and frame IDs are numbers never given out before, where the source draws them at random.
- Drivers other than Claude are arbitrary functions, and of Claude only the job guards and the stopped status are modelled; a result is assumed to have the type of its job.
- ClientJobs.OneJobOfAKind: for Claude frames only, since other drivers' jobs are arbitrary.
- ClientRuntime.OneAnswer: the spawn channel and Enqueue are assumed to drop nothing.
- ClientRuntime.StoreAgrees: file operations are assumed to succeed, and what a saved session holds beyond the modelled fields is not compared.
- ClientLoop.Loop.SpawnFrameWindow: the spawn procedure is one bookkeeping step with every way it can end; the order of its calls to the launcher is not modelled.
- Working-copy and view fields of sessions; an event that changes only those is no change here. The frame's subsystem, target and launch options are modelled.
- ClientReducer.ReduceRef: the Sessions map and the frame slices are references, the jobs map and the recency lists are values.
- ClientLoop.Loop.Execute: only spawn, release, reply and persist effects change what is modelled; the others go to the terminal, the network and the worker pool.
- ClientLoop.Loop.HandleSpawnComplete: the tables of subsystems and containers are not modelled.
- Subsystem reaping, container registration, shutdown drain of cleanups, cold-start and warm restore: runs start from a new state.
- Relay entries and subscriptions are told apart by numbers instead of pointers.
- Sockets, the web gateway, Docker and devcontainer launching, the credential proxy, palette tools and presentation.
