# ComposeLock: a verified model of its deploy and revert protocol

ComposeLock keeps Docker Compose stacks at the head of a git branch and rolls them back when a commit turns out bad. What
makes it trustworthy is one persisted record, a fixed order of saves, checkouts and Docker calls around it, and a few
algorithms it relies on to decide that a deploy succeeded or may be skipped. This project models those parts in Dafny and
proves what they promise, for every sequence of runs and every point at which the process may die.

`dafny verify dfyconfig.toml` checks everything.

## How it is laid out

| files | subject |
|---|---|
| `Wrappers`, `Records`, `Stacks`, `Protocol` | the record, the stack sets, and one run as a function of the world and of every answer from outside |
| `Safety`, `RevertSafety`, `ApplySafety`, `RunSafety` | the invariant, and that every call, path and sequence of runs keeps it |
| `Theorems`, `Episodes`, `Reverts`, `Gating`, `Convergence`, `Limits` | what follows: safety, bounded recovery, the gate, convergence, and where the code does less than expected |
| `Growth`, `Outcomes`, `Failures`, `Reports` | what single runs come to: who is blamed, what a failing call decides, when everything is left alone, and what is recorded |
| `Reconciler`, `StackSets`, `StateMethods` | the same code as objects and loops that change state in place, proved equal to the functions |
| `Logs` | the bounded failure list and history against the unbounded ones |
| `HealthSpec`, `HealthWatch` | what a health watch means, and the polling loop |
| `WatchPool`, `Verdicts`, `Seqlock` | concurrency: many watches at once, what their verdict says about the containers, and the monitor's reading of the activity counter |
| `Paths`, `Ordering`, `Inputs`, `Coverage`, `InputWalker`, `ProjectInputs`, `Relevance`, `Reach`, `Attribution` | which files a project is made of, and why an unaffected stack may be skipped |
| `Discovery`, `StackFiles`, `Fingerprint`, `DiscoverCache` | stack discovery, what it finds in which order, and its cache |

## How a run is modelled

A run is a chain of calls: load, save, fetch, checkout, discover, load project, pull, Up, Down, snapshot. Each call asks an
environment, which is an arbitrary function of the number of the call, and the answer is success, failure (classed as
infrastructure or as the commit's fault) or a crash, which ends the run there. Quantifying over environments quantifies over
every crash point, every failing save, every cancellation. A save that fails may still have landed, because the rename
precedes the sync of the directory (`internal/state/state.go`, lines 124 to 129). The world carries a log of all saves,
checkouts, pulls, Ups and Downs; the theorems about what "was brought up" or "has since been torn down" are about this log.

The theorems start from any world that satisfies the invariant, which a new installation does, and most of them allow any
runs at all (`ANY`). Where a property needs a limit, it is a condition on the record and the branch that can be checked
before the run, and `Limits` shows for it that some run outside breaks the property:

| mode or condition | excludes | run outside it |
|---|---|---|
| `COUNTED` | a superseding commit without a pending stack that is not healthy; a forced run out of DEGRADED while something runs that the record does not name | `SupersedingRunOrphans`, `RevivalSettlesNothing` |
| `TRACED` | a superseding commit without one of the pending stacks; a forced run out of DEGRADED while something touched is not named by the record | `SupersedingRunStrands`, `RevivalSettlesNothing` |
| `ELSEWHERE` | an attempt on the rollback target itself | `RetriedTargetIsKnownBad` |
| `Guarded`, for unforced runs | a known-bad commit that is pending and not being reverted | `UnguardedCommitIsApplied` |
| not `revived` | a forced run out of DEGRADED, for "DEGRADED is never pending" | `ForcedRunLeavesDegradedPending` |

`STEADY` is `TRACED` without superseding commits, and is used only to name the one pending commit.

Where the documentation and the code differ the code is followed: the manual says that `composelock check` touches nothing,
but the early branches of a run save and check out before the dry-run test (`Limits.DryRunWritesExactly`).

## Model

| member | source | states |
|---|---|---|
| `Theorems.FreshIsInvariant` | internal/state/state.go:73-75 | a new installation satisfies the invariant every theorem starts from |
| `RunSafety.EveryRunKeeps` | internal/reconcile/reconcile.go:118-187 | the invariant holds after every sequence of runs, pauses and moved worktrees, with a crash at any call, any call failing as infrastructure or as the commit's fault, any cancellation, and any save failing or landing although it failed |
| `RunSafety.TurnKeeps` | internal/reconcile/reconcile.go:118-165 | one run, at whatever point it dies, keeps the invariant |
| `RunSafety.RecoverKeeps` | internal/reconcile/recovery.go:16-97 | so does the recovery path, also when it degrades, reverts or applies a superseding commit |
| `ApplySafety.RunNormalKeeps` | internal/reconcile/apply.go:24-135 | so does the normal path |
| `ApplySafety.ApplyAndWatchKeeps` | internal/reconcile/apply.go:214-347 | so does an apply, from its checkout to promotion, abort or revert |
| `RevertSafety.DoRevertKeeps` | internal/reconcile/revert.go:18-109 | so does a revert, finished, interrupted or given up |
| `Theorems.KnownBadIsNeverApplied` | internal/reconcile/apply.go:59-64 | in any unforced runs, whatever went before, no commit that a run loaded as known-bad is brought up by it except as the rollback target, provided a known-bad commit pending at the start is being reverted |
| `Limits.UnguardedCommitIsApplied` | internal/reconcile/recovery.go:29-32 | otherwise there is an unforced run, from any such record, that brings the known-bad pending commit up |
| `Theorems.EveryApplyIsAnnounced` | internal/reconcile/apply.go:271-305 | every Up of a commit other than the rollback target finds that commit and that stack already in the durable pending record |
| `Theorems.OpenApplyIsRecovered` | internal/reconcile/apply.go:271-305 | whatever the runs, superseding commits and forced runs out of DEGRADED included: while an apply is under way the durable record is pending, and the next unpaused run that DEGRADED does not stop is recovery |
| `Theorems.OpenMeans` | internal/reconcile/apply.go:271-305 | an apply is under way exactly when one of its Ups has not been followed by a save that leaves nothing pending |
| `Theorems.AppliesEndSettled` | internal/reconcile/revert.go:28-90 | whatever the runs, the save that ends an apply gives up, promotes, or finishes the revert with every pending stack up and healthy at the rollback target or torn down since |
| `Theorems.CrashLeadsToRecovery` | internal/reconcile/reconcile.go:167-187 | while an applied stack is neither undone nor promoted, the durable record is pending with the stack, and short of superseding commits with the commit it was last brought up from, and the next unpaused run enters recovery, never the normal path |
| `Theorems.NoOrphans` | internal/reconcile/reconcile.go:228-264 | short of DEGRADED, every project that may run is a last-healthy or a pending stack, and a last-healthy one when nothing is pending, at every crash point: as long as every superseding commit has the pending stacks that are not healthy ones, and a forced run leaves DEGRADED only when the record names all that runs |
| `Limits.SupersedingRunOrphans` | internal/reconcile/apply.go:281-289 | otherwise there is a run, from any such record, that leaves a dropped pending stack running and named by nothing |
| `Theorems.TargetIsNeverKnownBad` | internal/reconcile/apply.go:349-365 | the rollback target is never known-bad as long as no run attempts the target itself |
| `Limits.RetriedTargetIsKnownBad` | internal/reconcile/apply.go:349-365 | otherwise there is a run, from any such record, that leaves the target known-bad: its Up fails as the commit's fault |
| `Theorems.RevertConserves` | internal/reconcile/revert.go:28-90 | however often reverts are interrupted, once nothing is pending every stack that any apply brought up has since been torn down, brought up at the rollback target, or promoted: as long as every superseding commit has all the pending stacks, and a forced run leaves DEGRADED only when the record still names all that was touched |
| `Limits.SupersedingRunStrands` | internal/reconcile/apply.go:304-365 | otherwise: from any record whose superseding commit drops a touched pending stack, some unforced run ends reverted with nothing pending and that stack unsettled |
| `Limits.RevivalSettlesNothing` | internal/reconcile/apply.go:24-40 | otherwise: from any DEGRADED record with nothing pending, a forced run whose fetch fails leaves DEGRADED with whatever ran unnamed still running and whatever was touched still unsettled |
| `ApplySafety.ChoiceMeetsNeeds` | internal/reconcile/apply.go:228-237 | the stacks chosen are enough: each stack that must come up, judged by itself, is among them |
| `Theorems.RollbackTargetIsLegitimate` | internal/reconcile/reconcile.go:483-505 | every reachable rollback target was recorded with that commit checked out and each of its stacks looked at: those a change reaches, the record of a resumed apply names, or a first deploy brings were up and watched healthy, an unweighed one was passed over only when another came up, and every stack it lacks that was last healthy or found at the worktree before was torn down; its stack set is the one discovered at it |
| `Theorems.RecordsStayClean` | internal/state/state.go:151-157 | a record that is not pending has no attempts, clock or stacks; a pending one has a clock; the gate counter stays within three; and as long as no forced run leaves DEGRADED, DEGRADED is never pending |
| `Theorems.DegradedRunStops` | internal/reconcile/reconcile.go:178-181 | an unforced run that finds DEGRADED writes nothing but history and pause and leaves Docker alone |
| `Theorems.DegradedIsAbsorbing` | internal/reconcile/reconcile.go:178-181 | so does every sequence of unforced runs from DEGRADED |
| `Theorems.DryRunLeavesDockerAlone` | internal/reconcile/apply.go:119-125 | a dry run never calls Pull, Up or Down, whatever the environment does |
| `Limits.DryRunWritesExactly` | internal/reconcile/apply.go:34-125 | in every environment, a dry run leaves log, record and worktree alone exactly when it reaches none of the four early writes: a failed fetch, a known-bad head, an irrelevant change, a failed snapshot; the manual says it touches nothing |
| `Limits.DryRunCanWrite` | internal/reconcile/apply.go:81-106 | a dry run that checks out an irrelevant commit and records it |
| `Limits.ForcedRunLeavesDegradedPending` | internal/reconcile/apply.go:271-289 | from any DEGRADED record that a forced run can start from and any branch head with stacks, some forced run leaves the record DEGRADED and pending |
| `Episodes.BoundedRecovery` | internal/reconcile/recovery.go:34-49 | however a pending episode began, while no run is forced or finds a superseding commit the commit and the clock never move, each run that touches Docker uses up one of the attempts left of three, and the counter goes no further |
| `Episodes.ExhaustedRecoveryDegrades` | internal/reconcile/recovery.go:34-49 | a run that finds no superseding commit, its fetch failing included, and three attempts used or the budget spent touches nothing, makes one save, and ends DEGRADED with the commit marked when that save succeeds |
| `Episodes.RunIsOneAttempt` | internal/reconcile/recovery.go:118-127 | whatever went before, a recovery run settles the episode, leaves it, or counts itself once, and touches Docker only after the count is durable and within three |
| `Episodes.DegradeGivesUp` | internal/reconcile/revert.go:179-211 | degrade clears the pending block, marks the commit and keeps the rollback target, in one save |
| `Gating.CountBlockCounts` | internal/reconcile/apply.go:150-181 | once the counting save succeeds, the record has one more block or is DEGRADED, whatever the revert that follows meets |
| `Gating.BlockedRun` | internal/reconcile/apply.go:150-181 | a run the gate blocks counts one more block, or the system is DEGRADED, when the calls up to the counting save succeed |
| `Gating.UnpassedIsNoLess` | internal/reconcile/apply.go:24-181 | no unforced turn on which the gate does not find the live stack healthy lowers the counter, in any environment: failed fetches, snapshots and saves, closed windows, irrelevant changes and recoveries of gate reverts included |
| `Gating.RecoveryKeepsBlocks` | internal/reconcile/recovery.go:16-97 | recovering the revert of a blocked run, in any environment, leaves the counter alone |
| `Gating.BlockedRunsEnd` | internal/reconcile/apply.go:150-181 | until the gate is passed, at most three blocked runs leave the system undegraded, whatever else happens between them |
| `Reverts.RevertSpares` | internal/reconcile/revert.go:18-109 | in any environment a revert leaves every project but its own stacks as it was |
| `Reverts.RevertWrites` | internal/reconcile/revert.go:18-109 | in any environment a revert saves at most once, keeping the rollback target and the mark of its commit, and, without a commit, the gate counter and all marks |
| `Convergence.WellRun` | internal/reconcile/reconcile.go:167-187 | one unforced run in a well environment ends a pending episode, and settles a state that is not pending |
| `Convergence.TwoRunsConverge` | internal/reconcile/reconcile.go:118-187 | from any state not stopped by a pause, two or more unforced runs in a well environment with a fixed branch end at the branch head with nothing pending, at a branch head refused as known-bad, or DEGRADED |
| `Convergence.RunsStayConverged` | internal/reconcile/reconcile.go:118-187 | once nothing is pending or the system is DEGRADED, every number of further well runs ends converged |
| `Convergence.DoRevertSettles` | internal/reconcile/revert.go:18-109 | a revert that meets no failure ends at the rollback target with nothing pending, or DEGRADED |
| `Convergence.ApplyPromotes` | internal/reconcile/apply.go:214-347 | an apply that meets no failure ends promoted, or, exactly when nothing is touched and a stack cannot be weighed, at the commit with the record as it was |
| `Outcomes.FaultDecidesBlame` | internal/reconcile/apply.go:367-374 | in a run with nothing pending, when discovery at the new commit, a load, an environment file or a pull fails, the durable record blames the branch head if the fault is the commit's own and the outcome is recorded, and nobody new if it is infrastructure's; nothing is pending |
| `Outcomes.RecoveryFaultDecidesBlame` | internal/reconcile/apply.go:367-374 | the same in a recovery run that applies the pending or the superseding commit, which stays pending |
| `Outcomes.NextRunFollowsBlame` | internal/reconcile/apply.go:59-64 | the next unforced run at that branch head is refused in the first case; in the second the head is not known-bad |
| `Outcomes.KnownBadIsRefused` | internal/reconcile/apply.go:59-64 | with nothing pending and a known-bad branch head an unforced run leaves the worktree and Docker alone, whatever its calls answer |
| `Failures.UpFaultDecides` | internal/reconcile/apply.go:291-309 | when an Up fails as infrastructure's fault or while shutting down, the apply stays pending and nobody is blamed; when it fails as the commit's own fault and nothing else goes wrong, the head is known-bad and the worktree is back at the rollback target, or the system DEGRADED without one |
| `Failures.WatchDecides` | internal/reconcile/apply.go:311-347 | when the watch fails, the apply stays pending and nobody is blamed; when it finds the stacks unhealthy and nothing else goes wrong, the head is known-bad and undone |
| `Failures.TearDownJoins` | internal/reconcile/reconcile.go:376-411 | a teardown fails exactly when one of its calls does, as infrastructure's fault exactly when one does as that |
| `Failures.RevertFaultDecides` | internal/reconcile/revert.go:125-177 | the one call of a revert that fails before its watch, a teardown included, decides: DEGRADED on the revert's own fault, still to be done on infrastructure's or a shutdown, with the commit marked either way |
| `Failures.ResumedRevertFaultDecides` | internal/reconcile/recovery.go:16-97 | so it goes in the durable record of a recovery run that takes up a revert |
| `Outcomes.PausedRunIsStill` | internal/reconcile/reconcile.go:174-176 | a paused run leaves log, record, worktree and all projects as they were, whatever its options, the record and its other calls |
| `Outcomes.ClosedWindowHolds` | internal/reconcile/apply.go:66-74 | outside the deploy window a run on a moved branch leaves the worktree and Docker alone |
| `Outcomes.ClosedWindowIsStill` | internal/reconcile/apply.go:66-74 | it leaves the record alone too, unless it has a failed fetch or a refused commit to record |
| `Outcomes.IrrelevantIsPassedOver` | internal/reconcile/apply.go:81-86 | an irrelevant change, once something is deployed, leads to no Pull, Up or Down, whatever the calls answer |
| `Outcomes.ForcedRecoveryStartsOver` | internal/reconcile/recovery.go:16-49 | a forced run on a pending record, exhausted or not, has a fresh counter and clock: before anything else it logs it saves itself as the first attempt, from now, unless its fetch alone outlasts the budget |
| `Outcomes.SupersedingStartsAfresh` | internal/reconcile/apply.go:273-289 | when a superseding commit reaches its first Up the durable record holds it with no attempt counted and the clock of the save that announced it |
| `Outcomes.ChoiceIsNeeded` | internal/reconcile/apply.go:228-237 | no stack is chosen without need: each must come up, judged by itself, or is a pending name that discovery no longer finds |
| `Outcomes.UnchangedIsLeftAlone` | internal/reconcile/apply.go:228-305 | over a whole run with something deployed and a change, every Pull, and every Up away from the rollback target, is of a stack of the new commit that the change touches |
| `Growth.ApplyAdds` | internal/reconcile/apply.go:214-347 | whatever its calls answer, an apply forgets nothing of the log, leaves the history alone, and pulls and brings up only chosen stacks from its commit, apart from Ups at the rollback target |
| `Growth.RunGrows` | internal/reconcile/reconcile.go:118-187 | up to the entry at its end no run forgets anything of the log or touches the history |
| `Reports.HistoryTells` | internal/reconcile/reconcile.go:525-550 | one entry, with the durable attempt's time and result and the run's commit and rollback, folded into an equal last one and within twenty, exactly when the run did something or failed, the record's attempt is no older than the run and no refusal, and load and save take effect |
| `Reports.RunTells` | internal/reconcile/reconcile.go:118-165 | over a whole run: that entry, or the history as it was; always as it was after a crash before it or a dry run |
| `Reports.RefusalIsUntold` | internal/reconcile/reconcile.go:535-537 | a refused commit leaves no entry |
| `Reports.FetchFailureIsNoted` | internal/reconcile/apply.go:28-43 | a failed fetch is noted as such and nothing else changes |
| `Reports.RefusalIsNoted` | internal/reconcile/apply.go:59-64 | so is a refused commit |
| `Reports.SnapshotFailureIsNoted` | internal/reconcile/apply.go:99-117 | and a failed snapshot at the gate |
| `Reports.DriftIsRepaired` | internal/reconcile/apply.go:76-80 | a worktree at the branch head but not where the record last put it is deployed anew when nothing fails |
| `Reports.ChangeIsDeployed` | internal/reconcile/apply.go:24-135 | a relevant change is deployed when nothing fails, unless no stack is touched and one could not be weighed |
| `Reports.IrrelevantIsCheckedOut` | internal/reconcile/apply.go:187-208 | an irrelevant change is checked out and recorded, and the rollback target stays |
| `Reports.NothingToDo` | internal/reconcile/apply.go:50-53 | with the worktree at the branch head and where it should be, a run leaves everything alone |
| `Limits.NormalReachesApply` | internal/reconcile/apply.go:119-148 | a run that passes the gate applies the branch head with the gate counter cleared in the durable record |
| `Reconciling.Reconciler.Save` | internal/state/state.go:98-131 | in place, what Protocol says of it: an atomic save that may also land and then report failure |
| `Reconciling.Reconciler.Checkout` | internal/git/git.go:99-107 | in place, what Protocol says of it: a checkout, or the debris of a failed one; no commit is refused |
| `Reconciling.Reconciler.Fetch` | internal/git/git.go:67-97 | in place, what Protocol says of it: fetch, and HEAD against the branch tip |
| `Reconciling.Reconciler.LoadAll` | internal/reconcile/apply.go:254-264 | in place, what Protocol says of it: loading and env files, stopping at the first failure |
| `Reconciling.Reconciler.TearDownStacks` | internal/reconcile/reconcile.go:376-411 | in place, what Protocol says of it: every stack attempted, the faults joined |
| `Reconciling.Reconciler.Degrade` | internal/reconcile/revert.go:179-211 | in place, what Protocol says of it: the DEGRADED save |
| `Reconciling.Reconciler.RevertInterrupted` | internal/reconcile/revert.go:125-170 | in place, what Protocol says of it: the save that keeps an interrupted revert pending |
| `Reconciling.Reconciler.RevertFailed` | internal/reconcile/revert.go:172-177 | in place, what Protocol says of it: interrupted or given up |
| `Reconciling.Reconciler.DoRevert` | internal/reconcile/revert.go:18-109 | in place, what Protocol says of it: checkout of the target, teardown, load, Up, watch and the closing save |
| `Reconciling.Reconciler.RecordOutcome` | internal/reconcile/reconcile.go:469-481 | in place, what Protocol says of it: the outcome save |
| `Reconciling.Reconciler.Incomplete` | internal/reconcile/apply.go:376-410 | in place, what Protocol says of it: an apply left pending, recorded unless shutting down |
| `Reconciling.Reconciler.AbortBeforeUp` | internal/reconcile/apply.go:412-430 | in place, what Protocol says of it: the worktree put back, and the outcome recorded |
| `Reconciling.Reconciler.AbortApply` | internal/reconcile/apply.go:367-374 | in place, what Protocol says of it: the commit marked unless the fault is infrastructure |
| `Reconciling.Reconciler.FailAndRevert` | internal/reconcile/apply.go:349-365 | in place, what Protocol says of it: the failed commit saved, then the revert |
| `Reconciling.Reconciler.PromoteHealthy` | internal/reconcile/reconcile.go:483-505 | in place, what Protocol says of it: the single save that promotes |
| `Reconciling.Reconciler.ApplyAndWatch` | internal/reconcile/apply.go:214-347 | in place, what Protocol says of it: checkout, discovery, the choice of stacks, and what follows it |
| `Reconciling.Reconciler.ApplyChanged` | internal/reconcile/apply.go:254-289 | in place, what Protocol says of it: load, pull and the pending save before any Up |
| `Reconciling.Reconciler.SavePending` | internal/reconcile/apply.go:273-289 | in place, what Protocol says of it: the pending block, its clock and counter kept for the same commit |
| `Reconciling.Reconciler.UpAndWatch` | internal/reconcile/apply.go:291-347 | in place, what Protocol says of it: Up, watch, teardown and promotion, or the revert |
| `Reconciling.Reconciler.AdvanceCheckout` | internal/reconcile/apply.go:187-208 | in place, what Protocol says of it: an irrelevant commit checked out and recorded |
| `Reconciling.Reconciler.PreflightBlocked` | internal/reconcile/apply.go:150-181 | in place, what Protocol says of it: the gate counter, and the revert or DEGRADED |
| `Reconciling.Reconciler.RunNormal` | internal/reconcile/apply.go:24-135 | in place, what Protocol says of it: the normal path |
| `Reconciling.Reconciler.SupersedingCommit` | internal/reconcile/recovery.go:99-116 | in place, what Protocol says of it: the newer branch head, if there is one to prefer |
| `Reconciling.Reconciler.RecoverFromCrash` | internal/reconcile/recovery.go:16-97 | in place, what Protocol says of it: the recovery path |
| `Reconciling.Reconciler.CountRecoveryAttempt` | internal/reconcile/recovery.go:118-127 | in place, what Protocol says of it: the counted attempt, saved before anything else |
| `Reconciling.Reconciler.ReconcileLocked` | internal/reconcile/reconcile.go:167-187 | in place, what Protocol says of it: load, pause, DEGRADED, recovery or the normal path |
| `Reconciling.Reconciler.RecordHistory` | internal/reconcile/reconcile.go:525-550 | in place, what Protocol says of it: the history entry of a run that did something |
| `Reconciling.Reconciler.Reconcile` | internal/reconcile/reconcile.go:118-165 | in place, what Protocol says of it: a whole run |
| `Reconciling.Operate` | internal/reconcile/reconcile.go:118-187 | any sequence of processes, run as a loop over objects, is the sequence of turns the theorems speak of |
| `StackSets.DeployedStacks` | internal/reconcile/reconcile.go:228-245 | the discovered stacks and each missing last-healthy name once |
| `StackSets.RestrictToNames` | internal/reconcile/reconcile.go:247-264 | one stack per requested name, a bare name when it is not found, no restriction when no names are given |
| `StackSets.IntersectByProjectName` | internal/reconcile/reconcile.go:348-360 | the stacks whose name is in the other set, in order |
| `StackSets.VanishedStacks` | internal/reconcile/reconcile.go:362-374 | the stacks whose name is gone, in order |
| `Protocol.WeighedMeans` | internal/reconcile/reconcile.go:281-304 | filterChanged keeps exactly the touched stacks and is undetermined exactly when some stack cannot be weighed |
| `Logs.FailedIsRecent` | internal/state/state.go:166-178 | after any failures since the last forget-all, the list is the last 16 of the distinct commits, most recent last |
| `Logs.KnownBadWindow` | internal/state/state.go:159-178 | a failed commit is known-bad exactly until 16 other commits have failed since |
| `Logs.HistoryIsRuns` | internal/state/state.go:212-224 | the stored history is the last 20 entries of the untruncated one |
| `Logs.RunsEncode` | internal/state/state.go:212-224 | the untruncated history is the run-length encoding, by commit and result, of everything recorded: it expands back and no neighbours could merge |
| `StateMethods.MutableState.MarkFailed` | internal/state/state.go:166-178 | in place, the record function of the same name; nothing else changes |
| `StateMethods.MutableState.ForgetAllFailed` | internal/state/state.go:194-198 | in place; no commit is known-bad afterwards |
| `StateMethods.MutableState.Pause` | internal/state/state.go:204-206 | paused exactly until the given time, or for good |
| `StateMethods.MutableState.Resume` | internal/state/state.go:208-210 | paused at no time |
| `StateMethods.MutableState.Record` | internal/state/state.go:212-224 | in place, the record function of the same name; nothing else changes |
| `HealthWatch.Watch` | internal/health/health.go:108-237 | Healthy exactly when every call is answered, every poll keeps the baseline ids and has no fatal container, restart excess or full streak, and the last snapshot passes; an error exactly when an unanswered call is reached |
| `HealthWatch.PollBound` | internal/health/health.go:133-147 | with sleeps of exactly the interval the watch makes max(1, ceil(duration / interval)) polls |
| `HealthWatch.PollOnce` | internal/health/health.go:149-223 | one poll, with the streak maps kept equal to the lengths the specification gives |
| `HealthWatch.WeighContainer` | internal/health/health.go:168-223 | one container: tolerable, and no streak full |
| `HealthWatch.MissingContainers` | internal/health/health.go:283-301 | true exactly when every baseline id is still there |
| `HealthWatch.RestartCounts` | internal/health/health.go:124-131 | the restart count of each baseline container |
| `HealthWatch.Evaluate` | internal/health/health.go:333-352 | healthy exactly when every container is completed, or a tolerated restart, or running and fine or a tolerated start |
| `HealthSpec.LengthIsStreak` | internal/health/health.go:193-222 | the counter reaches the limit exactly when enough polls since the last resetting one add to the streak |
| `HealthSpec.WatchDecomposes` | internal/health/health.go:140-237 | without container expectation the verdict is Healthy exactly when it is for each container by itself |
| `HealthSpec.PollDecomposes` | internal/health/health.go:149-223 | one poll passes exactly when it passes for each container by itself |
| `HealthSpec.HealthyHasNoFailures` | internal/health/health.go:168-183 | a Healthy verdict saw no container exited with a non-zero code, dead or being removed in any poll |
| `HealthSpec.HealthyHasFewRestarts` | internal/health/health.go:184-190 | and none that restarted beyond tolerance since the baseline, or at all beyond it when not part of it |
| `HealthSpec.FinalCheckMeans` | internal/health/health.go:333-352 | the final check passes exactly when every container exited with code zero, restarts, or runs with a blank, none or healthy probe |
| `HealthSpec.FineIsHealthy` | internal/health/health.go:108-237 | containers that stay, run, are fine and restart within tolerance make a Healthy verdict |
| `HealthSpec.SteadyTroubleFails` | internal/health/health.go:193-222 | as many polls in a row as the limit that show one container stuck, or one sick, are never Healthy |
| `WatchPool.VerdictIsTrue` | internal/reconcile/watch.go:24-82 | in every interleaving: Healthy without an error exactly when every stack's own watch finished Healthy, failed stacks are exactly those whose own watch found them unhealthy, and an error is a watch's own or the caller's cancellation |
| `Verdicts.VerdictIsHealth` | internal/reconcile/watch.go:24-82 | in every interleaving, the combined verdict is Healthy exactly when the snapshots of every stack meet the specification poll by poll, and the stacks it names do not |
| `Verdicts.EvidenceIsHealth` | internal/reconcile/apply.go:311-324 | the stacks a run records as watched healthy were healthy in that sense |
| `WatchPool.AtMostSixteen` | internal/reconcile/watch.go:33-54 | never more than 16 watches in flight |
| `WatchPool.NeverStuck` | internal/reconcile/watch.go:36-54 | until all workers have joined, some step can be taken |
| `WatchPool.StepsRunOut` | internal/reconcile/watch.go:36-54 | every step uses up a bounded amount of work |
| `WatchPool.StepKeepsInv` | internal/reconcile/watch.go:36-53 | the semaphore counts the watches in flight, a slot holds what its worker wrote, and an early stop has a failed watch behind it |
| `WatchPool.CombineOutcomes` | internal/reconcile/watch.go:56-81 | the loop that combines the outcomes is the fold |
| `WatchPool.FoldMeans` | internal/reconcile/watch.go:56-81 | what the fold says of the outcomes, both ways |
| `Seqlock.SingleFlight` | internal/reconcile/reconcile.go:118-131 | in every interleaving at most one attempt is past the mutex, and the counter is odd exactly while one is between its increments |
| `Seqlock.ObservedUndisturbed` | internal/reconcile/monitor.go:60-105 | a check that goes on to observe had no attempt between its increments from its first reading of the counter to its second, unless the 64-bit word wrapped all the way round |
| `Seqlock.StepKeepsInv` | internal/reconcile/reconcile.go:118-131 | what every step of attempts and checks keeps |
| `Paths.UnderIsAncestor` | internal/reconcile/apply.go:529-535 | pathUnder holds exactly of the strict ancestors, component by component |
| `Paths.ResolvedIsCanonical` | internal/reconcile/apply.go:537-549 | a path under the repository resolves to the canonical spelling of an absolute path |
| `Paths.DeeperIsLonger` | internal/reconcile/reconcile.go:336-341 | a strict ancestor has the shorter string |
| `Inputs.ResolvedCanonical` | internal/compose/inputs.go:230-241 | a resolved input is a canonical absolute path |
| `Inputs.VisitFrame` | internal/compose/inputs.go:102-134 | the walk reads nothing but the paths it collects: trees that agree on them give the same walk |
| `Inputs.IncludeFrame` | internal/compose/inputs.go:161-197 | the same, for one include entry |
| `Inputs.ExtendsFrame` | internal/compose/inputs.go:199-228 | the same, for the services of a file |
| `Coverage.VisitCovers` | internal/compose/inputs.go:102-134 | while the walk is complete, what it entered was readable and all references found there are among its paths |
| `Coverage.IncludeCovers` | internal/compose/inputs.go:161-197 | a complete walk has the files, the environment files and the implicit .env of an include |
| `Coverage.ExtendsCovers` | internal/compose/inputs.go:199-228 | a complete walk has every file a service extends from |
| `Reach.CompleteReachesAll` | internal/compose/inputs.go:102-134 | when no file is reached with two directories under which its references resolve differently, a complete input set is closed over everything that references lead to, however far and with whatever directories |
| `Reach.IncludedTwiceIsMissed` | internal/compose/inputs.go:111-115 | without that condition it fails: a file included under two project directories is walked for the first only, and the set still counts as complete |
| `Reach.ReferencesAreInputs` | internal/reconcile/apply.go:475-488 | a loader that follows references depends on nothing outside a complete input set of such a project |
| `Coverage.CanonicalIsLocal` | internal/compose/inputs.go:275-277 | a canonical path is never taken for a remote reference |
| `Coverage.ItemCoveredMeans` | internal/compose/inputs.go:161-197 | a covered include entry names only entered files, known environment files and a project directory that resolves |
| `Coverage.CoveredMeans` | internal/compose/inputs.go:136-228 | in a file of a complete walk every include entry is covered and every extended file was entered |
| `InputWalking.InputWalker.Visit` | internal/compose/inputs.go:102-134 | in place, the walk of the specification: one reference |
| `InputWalking.InputWalker.WalkIncludes` | internal/compose/inputs.go:136-159 | in place, the walk of the specification: the include list of a file |
| `InputWalking.InputWalker.WalkInclude` | internal/compose/inputs.go:161-197 | in place, the walk of the specification: one include entry |
| `InputWalking.InputWalker.AddEnvFiles` | internal/compose/inputs.go:181-193 | in place, the walk of the specification: its environment files |
| `InputWalking.InputWalker.WalkExtends` | internal/compose/inputs.go:199-228 | in place, the walk of the specification: the services of a file |
| `InputWalking.InputWalker.WalkService` | internal/compose/inputs.go:206-226 | in place, the walk of the specification: one service |
| `ProjectInputs.DeclaredPaths` | internal/compose/inputs.go:31-86 | the loops over services, configs and secrets collect the claims of the loaded project |
| `ProjectInputs.CollectMeans` | internal/compose/inputs.go:38-48 | complete exactly when no claim is a gap; the paths are exactly the targets |
| `ProjectInputs.Compute` | internal/compose/inputs.go:20-29 | the walk and the declared paths, sorted and without repeats |
| `ProjectInputs.InputsFrame` | internal/compose/inputs.go:20-29 | trees that agree on a project's inputs give it the same inputs |
| `ProjectInputs.InputsCanonical` | internal/compose/inputs.go:20-29 | every input is a canonical absolute path |
| `ProjectInputs.CompleteIsClosed` | internal/compose/inputs.go:20-29 | a complete input set holds the compose files, all references of every file entered, and every declared path |
| `ProjectInputs.DeclaredIsInput` | internal/compose/inputs.go:31-86 | every env file, extends file, build context, dockerfile, additional context, config file and secret file of the project, unless empty or remote, is an input, or the inputs are not complete |
| `ProjectInputs.UndeclaredContexts` | internal/compose/inputs.go:49-72 | the implicit .env is an input, and a dockerfile whose context cannot be told leaves the inputs incomplete |
| `Relevance.DeclaredChangeIsRelevant` | internal/reconcile/apply.go:475-500 | a change to anything a project declares, or below it, makes the project relevant |
| `Relevance.ChangeIsRelevant` | internal/reconcile/apply.go:445-473 | a change to the compose file, or below the compose directory, makes the commit relevant |
| `Relevance.SkipIsSound` | internal/reconcile/apply.go:475-500 | if no changed file is an input or under one, the inputs are the same in both trees, byte for byte, with everything below them |
| `Relevance.FindChangedDependency` | internal/reconcile/apply.go:490-500 | true exactly when some changed file is an input or lies under one |
| `Relevance.AnyUnderDir` | internal/reconcile/apply.go:519-527 | true exactly when some changed file lies under the directory |
| `Relevance.AnyFileChanged` | internal/reconcile/apply.go:506-517 | true exactly when some changed file is one of the files |
| `Relevance.ProjectInputsRelevant` | internal/reconcile/apply.go:475-488 | relevant when the project does not load, its inputs are incomplete, or one changed |
| `Relevance.RelevantChange` | internal/reconcile/apply.go:445-473 | the relevance test, for one compose file and for a compose directory |
| `Relevance.IrrelevantIsSame` | internal/reconcile/apply.go:475-488 | a project weighed as irrelevant has the same inputs in the other tree, byte for byte, and loads to the same project if loading it depends on its inputs |
| `Relevance.IrrelevantCommit` | internal/reconcile/apply.go:445-473 | a commit passed over as irrelevant changes no stack whose loading depends on its inputs, and nothing under the compose directory |
| `Attribution.LongerIsDeeper` | internal/reconcile/reconcile.go:336-341 | directories containing one file lie on one line, and there the longer string is the deeper one |
| `Attribution.OwnerUnique` | internal/reconcile/reconcile.go:334-344 | a changed file has at most one owning directory |
| `Attribution.OwnerOf` | internal/reconcile/reconcile.go:334-344 | the directory found is the deepest strict ancestor, or there is none |
| `Attribution.StackDirs` | internal/reconcile/reconcile.go:323-331 | the directories of the stacks, each once |
| `Attribution.TouchedStackDirs` | internal/reconcile/reconcile.go:322-346 | exactly the directories that own a changed file, a set that does not depend on the order of the stacks |
| `Attribution.WeighStack` | internal/reconcile/reconcile.go:285-319 | one stack: by ownership, else by its inputs, else undetermined |
| `Attribution.FilterChanged` | internal/reconcile/reconcile.go:281-304 | it keeps the stacks the protocol acts on, and with nothing undetermined every stack it leaves out is Untouched |
| `Attribution.LeftOutIsUnchanged` | internal/reconcile/reconcile.go:281-320 | an Untouched stack owns no changed file and its project, inputs and all files below them are the same in both trees |
| `Discovery.DiscoverySeesView` | internal/compose/discover.go:147-208 | discovery depends on nothing but the candidate files and subdirectories that the fingerprint covers |
| `Fingerprint.EncodingInjective` | internal/compose/discover.go:104-145 | the bytes hashed for one directory can be read back in one way only |
| `Fingerprint.FileUnique` | internal/compose/discover.go:141-142 | a NUL-ended name and a decimal length delimit a file whatever its contents |
| `Fingerprint.EntryPathInjective` | internal/compose/discover.go:360 | two entries of one directory never have the same path |
| `DiscoverCaching.ComputePrint` | internal/compose/discover.go:104-129 | the hash of the encoded view, or nothing when something cannot be read |
| `DiscoverCaching.HashComposeFiles` | internal/compose/discover.go:131-145 | the encoding of the candidate files, in order |
| `DiscoverCaching.HashSubs` | internal/compose/discover.go:114-127 | the encoding of the subdirectories, in order |
| `DiscoverCaching.ComposeFilesIn` | internal/compose/discover.go:210-229 | the compose files of a directory, or the first error |
| `DiscoverCaching.DiscoverAfresh` | internal/compose/discover.go:147-208 | discovery without a cache, as loops |
| `DiscoverCaching.SettleMeans` | internal/compose/discover.go:195-207 | discovery succeeds exactly when it found stacks with pairwise different names, and returns them in name order |
| `StackFiles.StacksAreRight` | internal/compose/discover.go:147-250 | every stack is the compose directory's or a visible subdirectory's, named after it, with exactly the compose files of that directory, each once: a base file before every other, an override file after every other, ties in string order |
| `StackFiles.NoStackIsMissed` | internal/compose/discover.go:147-208 | every visible subdirectory with a compose file that gives work has its stack |
| `StackFiles.RootIsNotMissed` | internal/compose/discover.go:147-208 | so has the compose directory itself |
| `StackFiles.CheckMeans` | internal/compose/discover.go:252-298 | a file is a compose file exactly when it holds one valid document that has services, an include or only known keys, and gives work exactly when services or includes are not empty |
| `DiscoverCaching.HitIsRight` | internal/compose/discover.go:75-84 | a hit answers what discovery finds in the view the directory has now |
| `DiscoverCaching.KeyNotEmpty` | internal/compose/discover.go:73-78 | the empty cache never hits |
| `DiscoverCaching.DiscoverCache.Discover` | internal/compose/discover.go:69-94 | equals discovery without a cache, and a failure changes nothing that is remembered |
| `DiscoverCaching.Serve` | internal/compose/discover.go:69-94 | over any sequence of calls on any contents, every answer is the uncached one |

## Left out

- Git, Docker, the Compose SDK, YAML parsing, schema validation and fsync are answers of the environment or function parameters; `IsInfraError` is the class such an answer carries.
- Notifications, embeds, heartbeat, logging, CLI, configuration, webhook server and signature checks: text and plumbing.
- The notifier's throttle, and the monitor's per-stack streaks and alerts after `observe` is entered: bookkeeping that no deploy decision reads.
- `LastHealthyAt`, `LastFailedAt`, the pause reason, error texts, skip reasons and the schema version of the record: nothing branches on them.
- The shape of a commit id: only that it may be empty is modelled, since every other check of it fails like git itself.
- The JSON round trip of the record: the durable record is the value that was saved.
- The single-flight mutex and the file lock are not part of a run in Protocol; Seqlock models the mutex by itself. Two processes at once are excluded by the file lock and not modelled.
- Teardown runs several Downs at a time; a crash may leave any subset of them done, but the order in which they take effect is not modelled.
- The live evaluation of the gate and of recovery is one verdict of the environment; the loop over stacks around it is not modelled.
- Baselines, failure texts and updated services returned with a watch result: reporting only.
- Theorems.NoOrphans: holds under the conditions of `COUNTED`; that they are needed for a forced run is shown for records with nothing pending.
- Theorems.RevertConserves: holds under the conditions of `TRACED`; that they are needed for a forced run is shown for records with nothing pending.
- Theorems.RollbackTargetIsLegitimate: lets an unweighed stack pass when another came up, because the code consults that flag only when nothing is brought up (`internal/reconcile/apply.go`, lines 238 to 246).
- Theorems.TargetIsNeverKnownBad: excludes attempts on the target itself, because then it fails (`Limits.RetriedTargetIsKnownBad`).
- HealthWatch.Watch: takes container ids to be unique within a snapshot, as Docker's are, and the poll at which the clock passes the deadline as given.
- HealthWatch.MissingContainers: the text that tells a lost replica from a replaced one is not modelled.
- WatchPool.VerdictIsTrue: takes a watch to report cancellation only when its context is done.
- Seqlock.ObservedUndisturbed: needs fewer than 2^64 increments between the two readings, which is what the counter's width gives.
- Relevance.SkipIsSound: takes the diff to name every path at which the trees differ, and the project's working directory to be absolute, as compose reports it; links between files are not modelled.
- Relevance.IrrelevantCommit and Attribution.LeftOutIsUnchanged: take loading the projects at hand to depend only on files in or under a complete input set; `Reach.ReferencesAreInputs` says when that follows, and `Reach.IncludedTwiceIsMissed` when it does not.
- Coverage.VisitCovers: a file is covered for the directory it was first entered with; the code does not revisit it for another.
- Reach.CompleteReachesAll: its condition is enough but not necessary, since a reference missed under one directory may be an input by another way.
- `filepath.Rel` is modelled for an absolute target, the only one it is given, and a missing working directory of the process is not modelled.
- DiscoverCaching.DiscoverCache.Discover: assumes no hash collision, no change of the directory during the call, and entry names without NUL or separator; cloning of the returned slices is not modelled because sequences are values.
- Discovery takes `strings.ToLower` and the sanitised project suffix as arbitrary functions, so nothing is said about which directory names collide.
