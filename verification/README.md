# A hybrid GPU scheduler, modelled and proved in Dafny

The program admits GPU tasks, places each on one of several NVIDIA and AMD GPUs by a five-part score, books memory and a
task count per GPU, gives them back when a task ends, preempts less important tasks, and drains a queue. A process
executor runs the tasks and calls back when they end. A cluster master assigns tasks to nodes, whose agents run them and
report back.

The project models this as a state machine (`Machine.dfy`): every mutex-protected method is one event, and an event
carries the choices the program leaves open (map iteration order, ties in unstable sorts, whether a process starts). The
classes in `Scheduler.dfy`, `Execution.dfy`, `Hybrid.dfy` and `Cluster.dfy` have the program's fields, branches and loops;
each method is proved to take exactly one such step. The theorems are about the steps and about all runs of them.

| file | what it is about |
|---|---|
| `Decimal.dfy`, `Types.dfy`, `Totals.dfy` | decimal IDs, the values, sums over the running map |
| `Scoring.dfy`, `Selection.dfy`, `Hybrid.dfy` | both scoring functions, filter, exchange sort and choice, agreement of the two schedulers |
| `Machine.dfy`, `Scheduler.dfy` | the state machine and the class that refines it |
| `FirstSteps.dfy` | steps with known outcomes, from which concrete runs are put together |
| `Ledger.dfy`, `Leaks.dfy` | the exact ledger, the one-sided ledger, capacity, runs through the API |
| `Preemption.dfy` | who is killed, when that succeeds, what it is worth, the history |
| `Queue.dfy` | what takes a task out of the queue, and when nothing does |
| `Outcomes.dfy` | what each call leaves behind, written out; the completed list |
| `Policies.dfy` | binpack, gpu_type and spread over runs of submissions, what promotion ignores |
| `Conservation.dfy` | every task is in one place, the completed window, preemption chains |
| `Execution.dfy`, `System.dfy` | the executor and its interleaving with the scheduler |
| `Coverage.dfy` | whether the memory of every live process is booked |
| `Locks.dfy` | the mutexes under the steps, and when callers wait for ever |
| `Cluster.dfy` | master, agent and the protocol between them |

## Where the code and its documentation differ

The model follows the code. The first three points are statements of the documentation that are false of it, the others
are consequences of the code that no document mentions. Each has a concrete input or an exact condition.

- "Fill up one GPU before using the next" (chart/README.md:63): a GPU takes the second task of a size in every pool exactly
  if it has more memory than three times the GPU count times that size (`Policies.BinpackPullsIff`). On the two default
  GPUs the first two tasks of the default size go by their kind: training and compute tasks to the NVIDIA GPU, inference
  tasks to the AMD GPU, whoever was first. A task of no such kind must leave the NVIDIA GPU that took the first one
  (`Policies.SecondDefaultTask`).
- "Match training to NVIDIA, inference to AMD" (chart/README.md:65): a task can only be placed on its preferred vendor
  exactly if some GPU of that vendor has room and is within a lead of 3 points (8 for compute tasks) in free memory and
  utilisation of every other GPU with room (`Policies.GpuTypeMatchesIff`). From the start, the second default-sized
  training task already goes to the AMD GPU (`Policies.SecondTrainingTaskLeavesNvidia`).
- "Distribute tasks evenly across GPUs" (chart/README.md:64): a task can only be placed on a GPU with the fewest tasks
  exactly if one of those stays ahead of every busier GPU with room (`Policies.SpreadPicksFewestIff`). On the two default
  GPUs 8 inference tasks of the default size always end up 3 against 5, with room left on the emptier GPU
  (`Policies.SpreadIsUneven`).
- Queue promotion always asks for 4096 MB, charges nothing and leaves the user's GPU request where a GPU number belongs,
  so it breaks the exact ledger when that number names a GPU (`Ledger.StepLedgerIff`,
  `Ledger.PromotionBreaksTheLedger`, `Policies.PromotionFitsIff`). Without such numbers, and with positive sizes, the
  ledger is exact over every API run (`Leaks.PlainTasksKeepTheLedger`).
- Preemption goes by priority across all GPUs, so it kills tasks on GPUs that the newcomer never gets, even on healthy
  ones (`Preemption.VictimSparedIff`, with a run from the start in `Preemption.VictimOnTheWrongGpu`).
- The check for room during preemption ignores GPU health, so a GPU out of order can cost tasks their lives for nothing
  (`Preemption.ProgressIff`, with a run from the start in `Preemption.VictimDiesForNothing`).
- Only the end of a running task looks at the queue. With nothing running a queued task waits for ever, even on idle GPUs
  that could take it, unless a later submission is placed and ends (`Queue.LeavesQueueIff`, `Queue.IdleQueueWaits`,
  `Queue.StrandedOnIdleGpus`).
- A task without a size is charged 4096 MB, and preempting it gives nothing back; a negative size, which the API accepts,
  is charged 4096 MB, and every refund books more (`Ledger.RefundsMatchChargeIff`, `Leaks.RefundKeepsCapacityIff`). Both
  leak memory, with runs from the start (`Leaks.UnsizedVictimLeaks`, `Leaks.NegativeSizeLeaks`); the second kind takes
  the booked memory beyond what the GPU has. The only other API step that raises a GPU's surplus is a release whose
  clamp fires, where an uncharged promotion lowered it before (`Leaks.ApiStepRaisesIff`); with positive sizes nothing
  leaks over any API run (`Leaks.SizedTasksNeverLeak`).
- A preferred GPU kind, which only the second scheduler knows, moves tasks that the first one would place elsewhere
  (`Hybrid.SchedulersAgreeIff`). The first one starts with two GPUs and the second one with none, so after the same
  registrations they differ until both default GPUs were registered anew (`Hybrid.RegistrationsAgreeIff`).
- Completing a task through the API frees its memory while its process lives on; so does preempting a task whose process
  cannot be killed, and the preemptor then runs beside it (`System.StepLiveKnownIff`, `System.CompletedWhileLive`,
  `System.PreemptedWhileLive`). So does the end of a promoted task, which gives back what was never charged, and so does a
  monitor report below what runs (`Coverage.StepCoveredIff`, with runs from the start in
  `Coverage.PromotionTakesTheBooks` and `Coverage.MonitorTakesTheBooks`). A task whose start failed keeps its memory until the API or a preemption takes it
  (`System.NeverStartedIsNeverReleased`, `System.FailedStartHoldsItsPlace`).
- A cluster task assigned by the background pass is never sent to its node and stays assigned for ever
  (`Cluster.StrandedForEver`, `Cluster.CanBeFreedIff`, `Cluster.BackgroundStrandsFromBoot`); a cluster task that reported
  success is dispatched again and then fails on the node that ran it (`Cluster.FinishedTaskFailsOnItsNode`,
  `Cluster.SuccessTurnsIntoFailure`); a node without a
  name is dispatched the same task again and again (`Cluster.NamelessNodeIsToldTwice`).
- An agent that waits five minutes for a task reports a failure while the process lives on; the next grant starts a second
  process elsewhere (`Cluster.MoveKeepsOneProcessIff`, `Cluster.TwoProcesses`).
- A submission that reaches the executor and the end of a process take the scheduler's and the executor's mutex in opposite
  order, so they can block each other for ever (`Locks.CanGetStuckIff`, `Locks.EmbracedForEver`). The heartbeat handler
  locks a mutex that it holds, so it never returns (`Locks.HeartbeatNeverReturns`); the cluster results are about the
  handler as one locked step.

## Model

The rows marked **main** are the theorems the project is about; the others are the operations and the steps towards them.

| member | source | states |
|---|---|---|
| `Decimal.AtoiItoa` | internal/scheduler/scheduler.go:163-165 | parsing what was printed gives the number back, for every 64-bit integer |
| `Decimal.CanonicalIff` | internal/scheduler/scheduler.go:403 | a GPU ID survives parsing and printing exactly if it is a canonical numeral |
| `Outcomes.AtoiExamples` | internal/scheduler/scheduler.go:163-165 | which texts at the edge parse, and to what |
| `Outcomes.AtoiRange` | internal/scheduler/scheduler.go:163-165 | a printed number parses exactly if it fits 64 bits |
| `Types.HealthyBounds` | pkg/types/gpu.go:77-85 | utilisation from 0 to 100 is healthy and no other; what is free can be allocated and no more |
| `Scoring.LoadedShift` | internal/scheduler/scheduler.go:251-304 | one more task of v MB lowers any GPU's score by its memory share, plus or minus one load step under binpack or spread |
| `Scoring.ShareCompare` | internal/scheduler/scheduler.go:253-298 | the binpack load step beats the memory penalty exactly if 3 * gpuCount * v is below the GPU's memory |
| `Scoring.PriorityNeverDecides` | internal/scheduler/scheduler.go:290-292 | the task's priority never changes which of two GPUs scores higher |
| `Scoring.UtilisationCounts` | internal/scheduler/scheduler.go:257-259 | in both schedulers, between GPUs otherwise alike 4 points of utilisation cost one point of score |
| `Scoring.MemoryCounts` | internal/scheduler/scheduler.go:251-254 | in both schedulers, between GPUs otherwise alike the whole memory is worth 30 points |
| `Scoring.LoadCounts` | internal/scheduler/scheduler.go:294-304 | in both schedulers, what a task more is worth between GPUs otherwise alike, per policy |
| `Scoring.VendorCounts` | internal/scheduler/hybrid_scheduler.go:57-98 | what a vendor is worth per kind of task, and what a preferred vendor is worth |
| `Scoring.PriorityCounts` | internal/scheduler/scheduler.go:290-292 | in both schedulers a step of priority is worth 1.5 points |
| `Scoring.IdleScore` | internal/scheduler/scheduler.go:248-307 | the score of an idle GPU, where these scales begin |
| `Scoring.GpuTypePrefersKindIff` | internal/scheduler/scheduler.go:261-302 | under gpu_type a GPU of the kind's preferred vendor outscores one of another vendor exactly up to a lead of 3 or 8 points in memory and utilisation, where they tie |
| `Scoring.ScoreWithinWeights` | internal/scheduler/scheduler.go:248-307 | documented weights: at most 100 under spread, gpu_type and others, at most 90 plus the load share under binpack, and lower bounds |
| `Scoring.LoadTablesAgree` | internal/scheduler/hybrid_scheduler.go:106-122 | the load tables of both schedulers and of the printed breakdown agree although they start from 5, 10 and 5 and two have no default case |
| `Scoring.KindTablesAgreeIff` | internal/scheduler/hybrid_scheduler.go:57-98 | the printed kind table is the task scheduler's; the hybrid one agrees with them exactly without a preference or where it is worth the same |
| `Scoring.HybridScoreAgreement` | internal/scheduler/hybrid_scheduler.go:41-129 | on one GPU both schedulers score alike exactly without a preferred kind or where it is worth the same; the printed total is always the task scheduler's score |
| `Scoring.BreakdownAgreement` | internal/scheduler/scheduler.go:310-354 | the single-GPU breakdown total is the score of a priority-5 task exactly under binpack or at a coincidental load |
| `Selection.SortByScore` | internal/scheduler/scheduler.go:226-233 | the nested exchange loop leaves a descending permutation, in place |
| `Selection.ScheduleLocked` | internal/scheduler/scheduler.go:193-245 | **main**: succeeds exactly if some healthy GPU has room, with a highest-scoring one of those and its score, for every map order; no GPU with room is the same but less utilised or less booked |
| `Selection.NoBetterTwin` | internal/scheduler/scheduler.go:226-236 | whatever the policy and the task, no admissible choice leaves a GPU with room that is the same but less utilised or less booked |
| `Selection.WinnerExistsIff` | internal/scheduler/scheduler.go:208-236 | an admissible choice exists exactly if some GPU is eligible |
| `Selection.WinnersIgnorePriority` | internal/scheduler/scheduler.go:290-292 | the set of admissible choices does not depend on the task's priority |
| `Machine.KillLoopIsPrefix` | internal/scheduler/preempt.go:86-139 | whatever the policy, the loop removes a prefix of the sorted victims and does nothing else |
| `Machine.MakeRoomFrame` | internal/scheduler/scheduler.go:148-158 | the attempt to make room changes GPUs, running map and history by killing that prefix and leaves everything else alone |
| `Machine.StaysKeyed` | internal/scheduler/scheduler.go:101 | every step keeps the map keys equal to the IDs of what they hold |
| `Machine.WithoutFirstAt` | internal/scheduler/scheduler.go:430-436 | cancelling removes one queued task, the first with the ID, and keeps the order of the others |
| `Execution.Executor.constructor` | internal/executor/executor.go:54-59 | the executor starts with nothing running |
| `Execution.Executor.SubmitTask` | internal/executor/executor.go:66-178 | starts a process on the given GPU exactly if the ID is unknown and the spawn succeeds; refuses a known ID without any change |
| `Execution.Executor.StopTask` | internal/executor/executor.go:302-323 | marks a known task killed exactly if its process tree could be killed; the entry stays |
| `Execution.Executor.MonitorTask` | internal/executor/executor.go:244-278 | uses up the one callback and records how the process ended: completed for a clean end, failed for an error, timeout for the time limit, with the exit code, and nothing else |
| `Scheduling.Scheduler.constructor` | internal/scheduler/scheduler.go:32-95 | the initial state with the two default GPUs, binpack and kill preemption from 7 against 5 |
| `Scheduling.Scheduler.RegisterGPU` | internal/scheduler/scheduler.go:98-102 | adds or replaces one GPU under its ID |
| `Scheduling.Scheduler.SubmitTask` | internal/scheduler/scheduler.go:124-190 | **main**: takes exactly one Submit step of the state machine under its own or the next counted ID, and the executor sees exactly the stops of the victims and the start |
| `Scheduling.Scheduler.FindRoom` | internal/scheduler/scheduler.go:148-158 | first attempt, preemption, retry: a GPU is found exactly if room was found or made and fits a healthy GPU, and it is a winner |
| `Scheduling.Scheduler.Place` | internal/scheduler/scheduler.go:160-184 | the success branch: charge, running map, GPU number and start, with the failed start kept in the running map |
| `Scheduling.Scheduler.TryPreempt` | internal/scheduler/preempt.go:54-140 | the guards, the sorted victims and the loop, for some legal order of the victims; there are victims exactly if preemption is enabled, the priority is at the threshold, and somebody at the limit is at least 2 below |
| `Scheduling.Scheduler.Preemptable` | internal/scheduler/preempt.go:66-73 | collects exactly the running tasks at or below the limit and at least 2 below the newcomer, each once |
| `Scheduling.SortByPriority` | internal/scheduler/preempt.go:80-83 | an ascending rearrangement; the order among equals is not promised |
| `Scheduling.Scheduler.KillInOrder` | internal/scheduler/preempt.go:85-139 | the loop over the victims has the outcome of the kill loop of the state machine, process stops included |
| `Scheduling.Scheduler.PreemptOne` | internal/scheduler/preempt.go:91-136 | one turn per policy: kill and check, skip the check, or only check |
| `Scheduling.Scheduler.HasEnoughResources` | internal/scheduler/preempt.go:143-150 | true exactly if some GPU has room, healthy or not |
| `Scheduling.Scheduler.TrySchedulePending` | internal/scheduler/scheduler.go:478-499 | takes exactly the drain of the state machine |
| `Scheduling.Scheduler.ReleaseTask` | internal/scheduler/scheduler.go:390-423 | takes exactly one Finish step, the same one as completing; the task becomes the last completed one |
| `Scheduling.Scheduler.CompleteTask` | internal/scheduler/scheduler.go:440-475 | takes exactly one Finish step and answers whether the task was running; the task becomes the last completed one |
| `Scheduling.Scheduler.CancelTask` | internal/scheduler/scheduler.go:426-437 | takes one Cancel step and answers exactly whether the task was queued |
| `Scheduling.Scheduler.UpdateGPUUsage` | internal/scheduler/gpu_update.go:11-21 | overwrites the usage of exactly the GPU with the ID, if there is one |
| `Scheduling.Scheduler.SetDefaultPolicy` | internal/scheduler/scheduler.go:502-506 | changes the policy and nothing else |
| `Scheduling.Scheduler.UpdatePreemptConfig` | internal/scheduler/preempt.go:163-170 | changes the preemption settings and nothing else |
| `Ledger.RefundsMatchChargeIff` | internal/scheduler/scheduler.go:135-138 | release refunds the charge exactly for sizes that are not negative, preemption exactly for positive sizes |
| `Ledger.PlacedHostIff` | internal/scheduler/scheduler.go:163-165 | the stored GPU number leads back to the charged GPU exactly for canonical IDs |
| `Ledger.KilledAllLedgerIff` | internal/scheduler/preempt.go:103-110 | kills keep all task counts, and keep the memory ledger exactly if every booked victim has a positive size |
| `Ledger.PlacedLedgerIff` | internal/scheduler/scheduler.go:160-173 | a placement books what the running map gains exactly if the GPU ID is canonical and no booked task is pushed out of the map |
| `Ledger.SubmitLedgerIff` | internal/scheduler/scheduler.go:124-190 | a whole submission keeps the exact ledger if and only if its kills and its placement are clean |
| `Ledger.ClampsNeverFire` | internal/scheduler/scheduler.go:405-412 | where the books cover the running tasks, the clamps of a release never fire |
| `Ledger.DrainAllOrNone` | internal/scheduler/scheduler.go:478-499 | the drain promotes the whole queue, losing nobody, or nothing and keeps the order; which one depends on a healthy GPU with 4096 MB |
| `Ledger.PromotedValue` | internal/scheduler/scheduler.go:490-492 | a promoted task is the queued one but for its status: nothing is charged and no GPU is stored |
| `Ledger.DrainedGap` | internal/scheduler/scheduler.go:478-499 | promotion leaves each GPU's surplus alone exactly if no promoted task names the GPU, and lowers it otherwise |
| `Ledger.FinishLedgerIff` | internal/scheduler/scheduler.go:390-423 | in any state release or completion keeps the exact ledger if and only if, on every GPU, what size rules and clamps leave booked is what the drain adds; where the books cover the running tasks: if and only if the size is not negative and nothing is promoted onto a known GPU |
| `Ledger.StepLedgerIff` | internal/scheduler/scheduler.go:124-499 | **main**: in any state with separate IDs a step keeps the exact ledger of memory and task counts if and only if it balances, and where the books cover the running tasks if and only if it is clean |
| `Ledger.StaysSeparate` | internal/scheduler/scheduler.go:129-131 | submissions under new IDs keep the IDs of queued and running tasks apart |
| `Ledger.PromotionBreaksTheLedger` | internal/scheduler/scheduler.go:481-493 | a run from the start in which finishing the only running task promotes a queued one without a charge, so that its GPU has booked one task less than name it |
| `Ledger.ExactLedger` | internal/scheduler/scheduler.go:160-173 | **main**: over every clean run of submit, release, complete, cancel and preempt the ledger is exact |
| `Ledger.BookedIsInitialPlusRunning` | internal/scheduler/scheduler.go:168-173 | **main**: over those runs used memory and task count are the initial values plus the running tasks placed on the GPU |
| `Leaks.StepNoLeak` | internal/scheduler/scheduler.go:399-422 | no leak-free step, promotion and clamps included, books more than the running tasks that name the GPU account for |
| `Leaks.NoLeakEver` | internal/scheduler/scheduler.go:478-499 | **main**: the one-sided ledger over every leak-free run with promotion |
| `Leaks.IdleMeansReturned` | internal/scheduler/scheduler.go:399-416 | after a leak-free run, once nothing runs every GPU is back to at most its initial booking |
| `Leaks.RefundKeepsCapacityIff` | internal/scheduler/scheduler.go:399-413 | a release keeps every pool within capacity exactly if the size is not negative |
| `Leaks.StepCapacityIff` | internal/scheduler/scheduler.go:195-206 | for all sizes, a step from within capacity stays there exactly if its kills, its release or its monitor report do; placement never exceeds a GPU |
| `Leaks.StepCapacity` | internal/scheduler/scheduler.go:195-206 | every step with sizes that are not negative and monitor reports in range keeps booked memory within each GPU |
| `Leaks.CapacityEver` | internal/scheduler/scheduler.go:148-173 | **main**: booked memory stays within capacity over every interleaving with sizes that are not negative and monitor reports in range |
| `Leaks.CapacityThroughoutIff` | internal/scheduler/scheduler.go:148-173 | for all sizes and reports, a run stays within capacity throughout exactly if each of its steps meets the step condition |
| `Leaks.NeverOvercommitted` | internal/scheduler/scheduler.go:169-173 | over clean runs the tasks placed on a GPU never need more than it has |
| `Leaks.ApiSubmitIsFresh` | internal/scheduler/scheduler.go:129-131 | an ID taken from the counter is that of no queued and no running task |
| `Leaks.SubmitRaisesIff` | internal/scheduler/scheduler.go:124-190 | in any state a submission makes some GPU book more than before beyond its running tasks exactly if a hosted victim has no size or the placement loses its GPU |
| `Leaks.RetiredRaisesIff` | internal/scheduler/scheduler.go:399-416 | in any state a release, before its drain, makes its GPU book more than before beyond its running tasks exactly if the size is negative or a counter does not cover it, so that a clamp fires |
| `Leaks.StepRaisesIff` | internal/scheduler/scheduler.go:390-422 | in any state, exactly which steps make some GPU book more than before beyond its running tasks |
| `Leaks.DrainRaisesNothing` | internal/scheduler/scheduler.go:478-499 | the drain never does, and hides nothing if it promotes nobody onto a known GPU |
| `Leaks.ApiStepLeaksIff` | cmd/server/main.go:124-138 | through the API, whatever the sizes, a step is leak-free exactly if it kills no task without a size and releases none of a negative size, and clean exactly if its drain is, too |
| `Leaks.ApiStepRaisesIff` | cmd/server/main.go:124-138 | **main**: in any state through the API, exactly the kill of a hosted task without a size and a release that leaves more booked than its drain adds do so; before the drain, exactly that kill and a release of negative size or not covered by the counters |
| `Leaks.BackedReleaseBookedIff` | internal/scheduler/scheduler.go:405-412 | where the books cover the running tasks, of these releases only those of negative size remain |
| `Leaks.ApiNeverLeaks` | cmd/server/main.go:124-138 | from the start, over every API run (without monitor reports) that kills no task without a size and releases none of a negative size, no GPU has booked more than its running tasks ask |
| `Leaks.NegativeSizeLeaks` | internal/scheduler/scheduler.go:399-409 | a run of two API calls with any negative size that kills nobody and ends with nothing running and 4096 MB plus that size booked, beyond the capacity of the GPU from -12289 MB on |
| `Leaks.UnsizedVictimLeaks` | internal/scheduler/preempt.go:103-110 | a run of two API calls that ends with nothing running and 4096 MB booked, because the victim had no size |
| `Leaks.StepSizes` | internal/scheduler/scheduler.go:124-499 | every lower bound on the submitted sizes stays one on the sizes in the books |
| `Leaks.SizedTasksNeverLeak` | cmd/server/main.go:124-138 | **main**: over every API run (without monitor reports) whose submissions all name a positive size no GPU has booked more than its running tasks ask, whatever is killed, promoted or completed |
| `Leaks.PlainTasksKeepTheLedger` | internal/scheduler/scheduler.go:160-173 | **main**: over every API run (without monitor reports) whose submissions all name a positive size and ask for a number of GPUs other than 0 and 1, both counters of every GPU are exactly those of its running tasks |
| `Leaks.SubmitThenFinishIff` | internal/scheduler/scheduler.go:440-475 | with an empty queue, placing and finishing a task restores the running map, and the GPUs exactly if the size is not negative |
| `Preemption.VictimsAreShortestPrefix` | internal/scheduler/preempt.go:85-139 | **main**: the victims are the shortest nonempty prefix after which some GPU has room, or everybody with the answer no |
| `Preemption.KillsSomebodyIff` | internal/scheduler/preempt.go:54-73 | **main**: under the kill policy a submission kills somebody exactly if it fits nowhere, preemption is enabled, its priority is at the threshold, and some running task is at or below the limit and at least 2 below it; it kills nobody else |
| `Preemption.RefusalSparesNobody` | internal/scheduler/preempt.go:85-140 | a refusal that leaves no room leaves no such task running |
| `Preemption.SevenReplacesFive` | internal/scheduler/preempt.go:68-72 | a run from the start: priority 7 just replaces priority 5 |
| `Preemption.SurvivorsOutrankVictims` | internal/scheduler/preempt.go:66-110 | **main**: no surviving candidate is less important than a victim, nobody else is touched, a refusal spares no candidate |
| `Preemption.OtherPoliciesRemoveNothing` | internal/scheduler/preempt.go:126-136 | wait refuses, any other policy name only looks for room; neither removes a task |
| `Preemption.MoreKillsMoreRoom` | internal/scheduler/preempt.go:104-107 | freeing is monotone along the victims |
| `Preemption.KillFreesIff` | internal/scheduler/preempt.go:104-107 | a kill takes room from no GPU in any pool exactly if the victim's size is not negative |
| `Preemption.PreemptionSucceedsInOrderIff` | internal/scheduler/preempt.go:85-150 | under the kill policy, for all sizes: preemption finds room exactly if some nonempty prefix of the victims' order, once gone, gives it |
| `Preemption.PreemptionSucceedsIff` | internal/scheduler/preempt.go:85-150 | **main**: under the kill policy, for candidates whose sizes are not negative: preemption finds room exactly if removing all candidates would give it, whatever the order and the ties |
| `Preemption.NegativeVictimMisleads` | internal/scheduler/preempt.go:85-150 | with a candidate of -5000 MB preemption finds room that removing all candidates would not give |
| `Preemption.NegativeBesideReached` | internal/scheduler/scheduler.go:148-173 | that state is reached from the start by three submissions |
| `Preemption.RoomIsWhereTheLastWas` | internal/scheduler/preempt.go:85-139 | under the kill policy, where no GPU had room, the kills give room on exactly one GPU, that of the last victim |
| `Preemption.VictimSparedIff` | internal/scheduler/preempt.go:85-139 | **main**: under the kill policy, where no GPU had room, a successful preemption could have spared a victim exactly if it ran on another GPU than the last one or that GPU has room to spare for it, for all sizes; where there was room before, it could for sizes that are not negative |
| `Preemption.VictimOnTheWrongGpu` | internal/scheduler/preempt.go:85-139 | a run from the start with healthy GPUs whose preemptor kills a task on a GPU that is too small for it, before it gets the other one |
| `Preemption.SubmissionRunsIff` | internal/scheduler/scheduler.go:148-187 | **main**: on healthy GPUs under the kill policy, for candidates whose sizes are not negative: a submission runs exactly if it fits at once or may preempt and removing all candidates makes room |
| `Preemption.SubmissionRunsInOrderIff` | internal/scheduler/scheduler.go:148-187 | the same for all sizes, with a prefix of the order in which the candidates come |
| `Preemption.HealthyRetryWorks` | internal/scheduler/preempt.go:132-150 | on healthy GPUs under the kill policy room found by preemption suffices for the retry, whatever runs and in every order |
| `Preemption.ProgressIff` | internal/scheduler/preempt.go:132-150 | **main**: among running tasks that the books cover, room found by preemption suffices for the retry exactly if no unhealthy GPU has the room, or is large enough and has a task to lose |
| `Preemption.VictimDiesForNothing` | internal/scheduler/preempt.go:132-150 | a run from the start: the monitor reports a GPU out of order, a preemptor kills its task and is queued all the same |
| `Preemption.KilledAllHistory` | internal/scheduler/preempt.go:112-122 | one record per victim, in kill order, with preemptor, victim and GPU |
| `Preemption.StepHistory` | internal/scheduler/preempt.go:68-122 | the history only grows, by submissions alone, and every record's preemptor outranks its victim by at least 2 |
| `Preemption.RunHistory` | internal/scheduler/preempt.go:153-160 | the same over every run and every change of settings |
| `Queue.QueueKeepsItsPrefix` | internal/scheduler/scheduler.go:478-499 | submissions, monitor reports, settings and ends that leave no room keep the queue as a prefix |
| `Queue.LeavesQueueIff` | internal/scheduler/scheduler.go:422-437 | **main**: a queued task leaves the queue exactly if it is cancelled or a running task ends and leaves a healthy GPU with 4096 MB |
| `Queue.IdleQueueWaits` | internal/scheduler/scheduler.go:394-422 | **main**: with nothing running, over every run without a cancellation and a placement, the queue only grows, however idle the GPUs |
| `Queue.StrandedOnIdleGpus` | internal/scheduler/scheduler.go:183-188 | such a run from the start, whose queued task would fit on an idle GPU |
| `Outcomes.SubmissionOutcome` | internal/scheduler/scheduler.go:124-190 | ID, counter, charge, GPU number and status of a placed task, or its place at the end of the queue |
| `Outcomes.VictimOutcome` | internal/scheduler/preempt.go:97-122 | what a kill changes on the GPU, in the running map and in the history |
| `Outcomes.FinishOutcome` | internal/scheduler/scheduler.go:399-421 | what a release changes on the GPU, with both floors, and in the completed list |
| `Outcomes.OverwriteOutcome` | internal/scheduler/gpu_update.go:11-21 | monitor reports and settings overwrite what they are about and nothing else |
| `Outcomes.CompletedAreLatest` | internal/scheduler/scheduler.go:416-421 | **main**: over every run with unused IDs from the start the completed list is all finished tasks, or the last 100 of them, in finish order |
| `Policies.FittingTaskIsPlaced` | internal/scheduler/scheduler.go:149-173 | a task that fits is placed at once on a winner, without preemption |
| `Policies.UtilisationDecides` | internal/scheduler/scheduler.go:257-259 | on the default GPUs, monitor reports of 90 and 0 percent send a task to the less utilised GPU although it has less of its memory free |
| `Policies.AttractorWins` | internal/scheduler/scheduler.go:226-236 | a GPU that outscores all others with room is the only choice at any priority |
| `Policies.LoadedWinnerAttracts` | internal/scheduler/scheduler.go:297-298 | under binpack a large enough winner outscores all others after it was loaded |
| `Policies.BinpackFillsOneFirst` | chart/README.md:63 | **main**: over every run of like submissions, a large enough GPU chosen once takes all the following ones until it has no room |
| `Policies.BinpackPullsIff` | chart/README.md:63 | **main**: a GPU with room for two takes the second task in every pool exactly if 3 * gpuCount * v is below its memory |
| `Policies.SecondDefaultTask` | chart/README.md:63 | on the two default GPUs under binpack, exactly where a first and a second default-sized task of any two kinds may go |
| `Policies.GpuTypeMatchesIff` | chart/README.md:65 | **main**: under gpu_type, in every pool with room, a task can only be placed on its preferred vendor exactly if some GPU of the vendor with room is within the lead of 3, 3 or 8 points of every other GPU with room |
| `Policies.SecondTrainingTaskLeavesNvidia` | chart/README.md:65 | from the start under gpu_type the first default-sized training task goes to the NVIDIA GPU and the second one to the AMD GPU |
| `Policies.SpreadPicksLeastLoaded` | internal/scheduler/scheduler.go:299-300 | among alike GPUs every winner under spread has the fewest tasks |
| `Policies.SpreadPicksFewestIff` | chart/README.md:64 | **main**: under spread, in every pool with room, a task can only be placed on a GPU with the fewest tasks exactly if one of those stays ahead of every busier GPU with room by its load |
| `Policies.SpreadIsUneven` | chart/README.md:64 | from the start under spread, every run of 8 default-sized inference tasks ends with 3 on the NVIDIA and 5 on the AMD GPU, with room left on the first |
| `Policies.SpreadStaysBalanced` | chart/README.md:64 | **main**: from alike GPUs, every run of like submissions of one priority that kills nobody keeps task counts within 1, whatever the ties |
| `Policies.PromotionFitsIff` | internal/scheduler/scheduler.go:482-490 | what is promoted fits in every pool that promotes it exactly if it needs no more than 4096 MB |
| `Conservation.AccountedIsSeparate` | internal/scheduler/scheduler.go:166-186 | while each accepted task is in one place, queued and running IDs never collide |
| `Conservation.StepAccounted` | internal/scheduler/scheduler.go:124-499 | every step with an unused ID keeps each accepted task in exactly one of queued, running, finished, cancelled, preempted |
| `Conservation.CancelTimes` | internal/scheduler/scheduler.go:430-434 | cancelling moves one task out of the queue and loses or duplicates nobody |
| `Conservation.WindowSlides` | internal/scheduler/scheduler.go:417-421 | trimming the completed list at every step gives the last 100 of all finished tasks |
| `Conservation.KeptEver` | internal/scheduler/scheduler.go:416-498 | conservation over every run with unused IDs |
| `Conservation.OnePlaceEach` | internal/scheduler/scheduler.go:394-397 | **main**: over every run with unused IDs from the start each accepted task is in one place, is released or preempted at most once, and the completed list is the last 100 in finish order |
| `Conservation.CountedIdsAreUnused` | internal/scheduler/scheduler.go:129-131 | over every run whose submissions leave the ID to the counter no ID is used twice, not even after its task finished, was cancelled or preempted |
| `Conservation.FaithfulEver` | internal/scheduler/preempt.go:113-121 | over every run with unused IDs every queued, running and recorded task carries the priority it was accepted with |
| `Conservation.ChainClimbs` | internal/scheduler/preempt.go:69-70 | along a chain of preemptions the priority rises by at least 2 per record |
| `Conservation.PreemptionChainsEnd` | internal/scheduler/preempt.go:68-72 | **main**: over every run with unused IDs and all settings preemption has no cycle, and with priorities 1 to 10 no chain is longer than 4 |
| `Conservation.ThresholdsEver` | README.md:145-146 | while the settings stay, every record respects both thresholds |
| `Conservation.DefaultPreemptorsAreSafe` | README.md:145-146 | over every run with unused IDs and the default settings only priority 7 and up preempts, only 5 and below is preempted, and no preemptor is ever a victim |
| `System.Submit` | internal/scheduler/scheduler.go:175-184 | a submission through the class is one step of scheduler and executor together |
| `System.HandleExit` | internal/executor/executor.go:244-284 | the end of a process is one step: its status and exit code, then the release by callback, which makes it the last completed task |
| `System.SystemRefinesScheduler` | cmd/server/main.go:36-38 | **main**: every run of the whole system is a run of the scheduler, so all scheduler theorems hold of it |
| `System.StartsAndCallbacks` | internal/executor/executor.go:70-73 | per task ID, starts are what the executor's map gains and callbacks are the starts no longer awaited |
| `System.ReleasedAtMostOnce` | internal/executor/executor.go:280-283 | **main**: over all interleavings with unused IDs: one process, one callback and one return of the charge per task at most |
| `System.ApiReleasesAtMostOnce` | internal/scheduler/scheduler.go:129-131 | **main**: the same with no condition on the run but that IDs come from the counter |
| `System.StatusFitsEver` | internal/executor/executor.go:247-278 | over every run a task shows as running or killed while awaited, and never as running once its process ended |
| `System.ShowsFateEver` | internal/executor/executor.go:144-323 | **main**: from the start, over every interleaving, the executor shows of each task what happened last to its process on the GPU it was placed on: running, killed, or ended with its outcome and exit code |
| `System.StepKeepsBooked` | internal/scheduler/scheduler.go:416 | only its own end takes a task out of the running map without a preemption record |
| `System.StepProcessesBookedIff` | internal/scheduler/scheduler.go:440-475 | a step keeps every awaited process in the running map or in the preemption history exactly if it does not complete a live task through the API |
| `System.ProcessesBookedEver` | internal/executor/executor.go:280-283 | over every run without such completions every awaited process has its task in the running map or in the preemption history |
| `System.StepLiveKnownIff` | internal/scheduler/preempt.go:97-110 | a step keeps the task of every process that has not ended in the running map exactly if it neither completes a live task through the API nor preempts a live one whose process cannot be killed |
| `System.LiveKnownEver` | internal/scheduler/preempt.go:97-110 | over every run without such steps every live process has its task in the running map |
| `Coverage.StepCoveredIff` | internal/scheduler/scheduler.go:399-413 | **main**: a step keeps the memory of every live process booked on its GPU exactly if it orphans none, its refunds leave what the other live tasks were charged, and no monitor report is below that |
| `Coverage.CoveredEver` | internal/scheduler/scheduler.go:399-413 | over every run of such steps the memory of every live process is booked |
| `Coverage.LiveCoveredEver` | internal/scheduler/scheduler.go:160-173 | **main**: from the start, over every interleaving without monitor reports that orphans nobody and whose submissions all name a positive size and ask for a number of GPUs other than 0 and 1, what the live processes of a GPU were charged is booked, and the GPU has the memory |
| `Coverage.PromotionTakesTheBooks` | internal/scheduler/scheduler.go:478-499 | a run from the start with positive sizes that orphans nobody: the end of a promoted task leaves a live process of 20000 MB with nothing booked |
| `Coverage.MonitorTakesTheBooks` | internal/scheduler/gpu_update.go:11-21 | a run from the start: a monitor report leaves a live process of 20000 MB with nothing booked |
| `System.CompletedWhileLive` | internal/scheduler/scheduler.go:440-475 | a run from the start that ends with a live process and nothing booked |
| `System.PreemptedWhileLive` | internal/scheduler/preempt.go:97-110 | a run from the start that ends with two live processes of 20000 MB each on a GPU of 24576 MB with 20000 MB booked |
| `System.NeverStartedIsNeverReleased` | internal/scheduler/scheduler.go:177-181 | **main**: a running task whose start failed, or that was promoted, is released by no exit in any run; only the API or a preemption takes it out |
| `System.FailedStartHoldsItsPlace` | internal/scheduler/scheduler.go:177-181 | from the start, a task whose start failed stays running or preempted over every run that leaves it alone |
| `System.LateCallbackIsIdle` | internal/scheduler/scheduler.go:394-397 | a callback changes the scheduler exactly if the task is still in the books |
| `Hybrid.HybridScheduler.constructor` | internal/scheduler/hybrid_scheduler.go:18-23 | starts with a GPU count of 2 and no GPU |
| `Hybrid.HybridScheduler.SetGPUCount` | internal/scheduler/hybrid_scheduler.go:26-28 | sets the count |
| `Hybrid.HybridScheduler.RegisterGPU` | internal/scheduler/hybrid_scheduler.go:31-33 | appends without replacing |
| `Hybrid.HybridScheduler.Schedule` | internal/scheduler/hybrid_scheduler.go:132-181 | succeeds exactly if some healthy GPU can allocate, with a best one and its score, for every behaviour of the sort among equals |
| `Hybrid.SchedulersAgree` | internal/scheduler/hybrid_scheduler.go:132-181 | on the same GPUs without a preferred kind both schedulers succeed together with the same winners and the same best score |
| `Hybrid.SchedulersAgreeIff` | internal/scheduler/hybrid_scheduler.go:57-98 | **main**: both schedulers admit the same winners on all GPUs exactly if the task prefers no GPU kind, from two separately written tables |
| `Hybrid.RegistrationsAgreeIff` | internal/scheduler/scheduler.go:44-102 | **main**: after the same registrations both schedulers hold the same GPUs exactly if no ID was registered again with other data and both default GPUs, which only the task scheduler starts with, were registered |
| `Cluster.Server.constructor` | pkg/master/master.go:45-54 | starts with no node and no task |
| `Cluster.Server.SubmitTask` | pkg/master/master.go:164-194 | adds one waiting task under a counted ID and returns that ID |
| `Cluster.Server.HandleHeartbeat` | pkg/master/master.go:97-149 | registers the node, assigns it exactly the granted waiting tasks and dispatches each of them once |
| `Cluster.Server.TrySchedule` | pkg/master/master.go:197-220 | every waiting task goes to an online node that accepts it, or no online node accepts it; nothing is dispatched |
| `Cluster.Server.FindNode` | pkg/master/master.go:207-218 | finds an accepting online node if there is one |
| `Cluster.Server.HandleTaskResult` | pkg/master/master.go:223-240 | stores completed for code 0 and failed for any other, makes the task wait again, and changes no other task |
| `Cluster.Server.MarkStaleNodes` | pkg/master/master.go:254-261 | marks exactly the stale nodes offline and turns none online |
| `Cluster.Server.CleanupStaleNodes` | pkg/master/master.go:290-301 | removes nodes and leaves their tasks assigned |
| `Cluster.Agent.constructor` | pkg/agent/agent.go:50-59 | starts with no local task |
| `Cluster.Agent.WaitTaskComplete` | pkg/agent/agent.go:192-218 | reports the first finished poll, nothing if the task is gone, and -1 when the polls are used up |
| `Cluster.Agent.ExecuteTask` | pkg/agent/agent.go:138-189 | at most one report per dispatch: -1 for a task the node cannot start or has started before, otherwise the verdict of the polls |
| `Cluster.Execute` | pkg/agent/agent.go:138-218 | **main**: one execution by the agent is one delivery, refused exactly if its executor does not start it, then at most one report: of the refusal, of a vain wait, or of the end of the process; the protocol allows the report at every later moment, and its record of starts stays the executor's map |
| `Cluster.NodesAreApart` | pkg/agent/agent.go:179-180 | whatever happens elsewhere, the record of a node's starts stays that of its executor |
| `Cluster.MoveAlternatesIff` | pkg/master/master.go:127-145 | a move keeps assignments, dispatches, open jobs and results of all tasks in step exactly if it assigns no waiting task to a nameless node |
| `Cluster.ResultsReachAssignedTasks` | pkg/master/master.go:223-240 | no result ever reaches a waiting task |
| `Cluster.AlternationEver` | pkg/master/master.go:223-240 | **main**: from the start, over every run of nodes with names, with deliveries, losses, marks and cleanups, a task has at most one dispatch unanswered, none while it waits, no more answers than dispatches, and nothing under way but to or at the node it is assigned to |
| `Cluster.ShowsLastEver` | pkg/master/master.go:223-240 | **main**: from the start, over every run a task is pending exactly until a result arrives, then completed if the last one was 0 and failed otherwise |
| `Cluster.NodeOnlineIff` | pkg/master/master.go:57-93 | a node comes online by its first heartbeat alone and stays so until it is marked stale or removed; the heartbeat of a node marked offline does not bring it back |
| `Cluster.NamelessNodeIsToldAgain` | pkg/master/master.go:128-133 | a granted task stays waiting exactly if the node has an empty name |
| `Cluster.NamelessNodeIsToldTwice` | pkg/master/master.go:128-133 | a run from the start in which a nameless node is sent one task twice |
| `Cluster.BackgroundStrands` | pkg/master/master.go:197-220 | an assignment by the background pass is stranded, with nothing under way for it, exactly if the node has a name |
| `Cluster.BackgroundStrandsFromBoot` | pkg/master/master.go:197-220 | such a run from the start, and the task pending on its node after every later run |
| `Cluster.StrandedForEver` | pkg/master/master.go:197-220 | **main**: a stranded task, by the background pass or by a lost message, is never dispatched, moved or finished again in any run, even when its node is removed |
| `Cluster.CanBeFreedIff` | pkg/master/master.go:197-240 | **main**: an assigned task can become free in some run exactly if a dispatch, a job or a result is under way for it |
| `Cluster.FinishedTaskFailsOnItsNode` | pkg/master/master.go:128-136 | **main**: a reported task is dispatched again on its next grant; on a node that ran it before, every run that frees it without another grant leaves it failed, and there is one |
| `Cluster.SuccessTurnsIntoFailure` | pkg/master/master.go:223-240 | a run from the start in which a task reports success, is dispatched to its node again, and shows as failed after every run that frees it without another grant |
| `Cluster.MoveKeepsOneProcessIff` | pkg/agent/agent.go:192-204 | a move keeps every task at one live process, at the node it is assigned to, exactly if no agent gives up on a process that still lives |
| `Cluster.OneProcessEver` | pkg/agent/agent.go:192-218 | **main**: from the start, over every run of nodes with names in which no agent gives up on a live process, a cluster task has at most one live process in the whole cluster |
| `Cluster.TwoProcesses` | pkg/agent/agent.go:200-204 | a run from the start in which an agent gives up waiting and the task then has live processes on two nodes |
| `Locks.StuckIff` | internal/scheduler/scheduler.go:125-177 | callers of the scheduler and the executor are stuck exactly if a submission and an exit each hold the mutex that the other wants |
| `Locks.EmbracedForEver` | internal/executor/executor.go:244-284 | no run frees either of the two |
| `Locks.CanGetStuckIff` | internal/executor/executor.go:244-284 | **main**: a set of calls can get stuck in some order of their lock operations exactly if it has both a submission that reaches the executor and the end of a process |
| `Locks.HeartbeatNeverReturns` | pkg/master/master.go:97-99 | **main**: over every run of all calls a heartbeat never returns, because it locks the mutex it holds |
| `Locks.HeartbeatStopsTheMaster` | pkg/master/master.go:57-58 | once a heartbeat has the mutex, no other call to the master ever begins |

## Left out

- Floating point: scores are exact reals, so rounding, infinities and not-a-number are not modelled. A GPU has more than
  0 MB of memory and the GPU count is positive, so no score divides by zero.
- 64-bit wrap-around of sizes, priorities and counters, except where a GPU ID is parsed.
- Shared pointers: tasks and GPUs are values, so a task's status as the scheduler stores it and as the executor stores it
  are two values, and a GPU record handed out by `GetGPU` cannot be changed behind the scheduler's back.
- Locks: outside `Locks.dfy` each mutex-protected method is one atomic step. The heartbeat handler, which locks a mutex
  that it already holds, is one locked step there, and so is `UpdateGPUUsage`, which takes no lock. `Locks.dfy` has the
  order of the lock operations and no data; the agent's mutex is never held while another one is taken.
- Scheduling.Scheduler.RegisterGPU: takes only GPUs with more than 0 MB of memory, although the program takes any; the
  score of any other divides by zero. It is set-up only, not a step of the runs.
- Hybrid.HybridScheduler.RegisterGPU: takes only GPUs with more than 0 MB of memory, for the same reason.
- Hybrid.HybridScheduler.SetGPUCount: takes only positive counts, although the program takes any, because the score
  divides by the count.
- Leaks.StepCapacity: is about sizes that are not negative, because negative ones exceed capacity
  (`Leaks.NegativeSizeLeaks`); `Leaks.StepCapacityIff` has the exact condition for all sizes.
- Leaks.CapacityEver: likewise; `Leaks.CapacityThroughoutIff` has the condition for all sizes.
- Policies.SpreadStaysBalanced: is about submissions of one priority that kill nobody under the settings of the moment,
  because preemption takes tasks away from some GPUs only.
- Preemption.PreemptionSucceedsIff: is about candidates whose sizes are not negative, because otherwise the order matters
  (`Preemption.NegativeVictimMisleads`); `Preemption.PreemptionSucceedsInOrderIff` has all sizes.
- Preemption.SubmissionRunsIff: likewise; `Preemption.SubmissionRunsInOrderIff` has all sizes.
- Preemption.ProgressIff: supposes that some 64-bit number names no GPU.
- Execution.Executor.SubmitTask: says whether a process starts, not how; command lines, environments, log files and
  process trees are operating-system calls.
- Cluster.Server.HandleHeartbeat: takes the answers of the local scheduler as an argument, because `LocalScheduler` is not
  part of this model; so do the GPU lists and load figures of a node.
- Cluster.Agent.WaitTaskComplete: takes what the polls see as an argument; timers and the HTTP client are not modelled.
- Cluster.Execute: is about one agent process; an agent that restarts and forgets what it ran is not modelled.
- Messages of the cluster protocol may be lost or stay under way, but are not repeated or forged.
- Clocks: which nodes are stale and when a task times out are inputs of a step.
- Task names, commands and arguments, the task queue slice the master never reads, and log and message texts.
- `ListTasks`, getters and the formatting of score breakdowns: they would add easy members only.
- HTTP routes, metrics, dashboards, SSE and WebSocket managers, and the polling of GPU monitoring tools.
