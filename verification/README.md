# Kwarm: a verified model of the pre-pull operator

Kwarm pulls container images to nodes before a rollout needs them. This project models the three controllers, the
rate limiter they share and the job store they work on, and proves what the design promises about them.

**The lifecycle machine.** A PrePullImage holds one entry per target node: Pending, Pulling, Completed or Failed. A
reconcile walks the entries, takes and gives back limiter slots, creates, adopts or deletes pull jobs, counts
retries and writes summary and phase. `RateLimiting.RateLimiter`, `Controller.ApiServer`, `Controller.PpiCopy` and
`Controller.PrePullImageReconciler` are classes updated in place, as in the source. Their methods are proved against
the functions of `Pass` (one pass over the entries) and `System` (handlers, one step, runs).

**Runs.** `System.Run` applies any sequence of steps to any number of PrePullImages: submission, deletion request,
reconcile, job progress or disappearance, operator restart, and a crash in the middle of a reconcile. Everything the
outside world decides is an input of the step: which API calls fail, what jobs did between two entries of a pass,
which nodes are listed, which jobs a failing cleanup leaves, the clock. So one theorem about `Run` covers every mix
of failures. Bounds that failures weaken say by how much, by counts of those failures in the history: restarts, lost
starts and stops (a pass or a finalizer whose write failed, or that a crash cut short), creations that reported an
error although the job was made, and jobs that a failed cleanup left running. Each job also says how it stands to the
entry that made it: bound to it, loose (the record of the start was lost, or the creation reported an error), spent
(its deletion before a retry failed) or orphaned (left behind by a failed cleanup). For the main results a corollary
speaks of the inputs alone (`System.Tidy`, `System.Flawless`, `JobLimit.Contained`, `Ties.StepKeeps`,
`Soundness.CleansUp`).

**Interleaving.** In `System` a reconcile is one step. `Interleaving` takes passes over different PrePullImages apart
and lets them run at the same time, entry by entry, as they would with several workers. The ledger and its exact form
(`Interleaving`), the limit on unfinished jobs (`InterleavedJobs`) and soundness of Completed (`InterleavedSoundness`)
hold at every moment of every such run.

**Slots.** A `Slot` is the whole cluster or one node. Ledger theorems are stated for every slot, so each covers the
cluster limit and all node limits at once.

**Outcomes.** `PullOutcomes` says what becomes of an entry from the pods its job reports, and `Delivery` what a user gets
from submitting and withdrawing a PrePullImage, from its specification and the node list.

**Names.** Passes and runs are proved for every way of naming jobs. Module `Naming` has the operator's own names and
says exactly when they collide.

**The change detector and the policy count.** `Detector` has the deployment controller with its annotation as
memory; `Policies` has the selector and the policy controller's nested count. What the deployment controller does to
PrePullImages is a run of the transition system (`Detector.DetectIsARun`), so the theorems on runs cover it.

## Results that differ from what one would hope

- A lost status write leaks its slots for good: before the first restart, and as long as no record of a stop is lost,
  every counter is exactly the Pulling entries plus the starts whose record was lost (`Ledger.LeakIsExact`). Whatever
  the limits, a single lost write can starve every PrePullImage until a restart (`Witnesses.OneLostWriteStarves`).
  `Progress.NoDeadlock` has the exact condition for a pass to start something; without lost starts since the last
  restart it always holds.
- Lost starts do not put more jobs on the cluster than promised, because they leave their slots taken. Lost stops,
  failed cleanups and timed-out creations do (`Witnesses.LostStopPullsOver`, `Witnesses.LeftoverRunsOver`,
  `Witnesses.TimeoutRunsOver`), by one job each at most (`JobLimit.UnfinishedJobsWithinLimit`).
- At age exactly one hour the remaining delay is zero, which asks for no requeue; it is the only lost wake-up
  (`Progress.WokenAgainExactlyWhen`), and a flawless run has it (`Witnesses.WakeUpIsLost`).
- A finished PrePullImage stays for ever, unless somebody deletes it, if and only if it was completed for lack of nodes
  (`Progress.NeverExpiresExactlyWhen`); a flawless run leads there (`Witnesses.NoNodesNeverExpires`).
- Any two pulls that get one job name can make the operator record an image as Completed on a node where it never
  was, although no call fails (`Witnesses.ClashBreaksSoundness`, `Witnesses.ClashWithinOne`). Names leave out the
  namespace, so equal names in two namespaces clash; so do all nodes of a PrePullImage whose name has 51 or more
  characters (`Naming.NodesShareAJobExactlyWhen`).
- Without clashes Completed is still not sound if a cleanup fails: a PrePullImage that is submitted again for another
  image adopts the job left behind (`Witnesses.LeftoverBreaksSoundness`). That is the only exception
  (`Soundness.CompletedMeansPulled`), and if cleanup does not fail there is none (`Soundness.OperatorIsSound`).
- When two changed images of a deployment share a PrePullImage name, the later replaces the earlier although the
  annotation records both (`Detector.AllStandExactlyWhen`, with `Naming.ImagesShareAPrePullImageExactlyWhen`). Any two
  images of a deployment whose name has 62 or more characters do (`Detector.LongNameLosesImage`).
- A deployment's PrePullImage that is in use for another image is not replaced at once: the creation is refused until the
  old object's finalizer is done (`Detector.EnsuredExactlyWhen`).
- Withdrawing a PrePullImage deletes the jobs of its namesakes in other namespaces, running ones included
  (`Delivery.WithdrawalSparesOthersExactlyWhen`).
- A reconcile that finds changed images but no target node records nothing and asks for no retry
  (`Detector.RecordsExactlyWhen`, at an input `Detector.NoNodesRecordsNothing`).
- The policy count is right for every cluster exactly when the namespace list has no duplicate and no empty name
  (`Policies.CountsAgreeExactlyWhen`).

Where code and documentation disagree the model follows the code: jobs are tied to their PrePullImage by labels and
annotations, not by owner references (`docs/architecture.md`, "Cleanup"); no back-off delay is observed between
retries; the time to live is the constant one hour.

## Assumptions

- A status write or finalizer removal either takes effect or returns an error and changes nothing; reads are fresh.
- The image and retry limit of a PrePullImage do not change after submission, and Kwarm's is its only finalizer.
- Except in the modules on interleaving, each controller reconciles with one worker, the default, so handlers do not interleave
  with each other. Jobs may still change between any two entries of a pass.
- A deleted job leaves the store at once. Job counters of succeeded and failed pods never go down.
- The hash is any function to eight characters; where it must tell names apart, that is a hypothesis.

## Model

| member | source | states |
|---|---|---|
| RateLimiting.RateLimiter.constructor | internal/ratelimiter/ratelimiter.go:34-46 | non-positive limits become 10 and 2; the counters start empty |
| RateLimiting.RateLimiter.TryAcquire | internal/ratelimiter/ratelimiter.go:50-64 | grants exactly when both counters are below their limits, and then takes one unit of each; keeps the object valid |
| RateLimiting.RateLimiter.Release | internal/ratelimiter/ratelimiter.go:67-80 | gives back one unit of each counter, never below zero; a node whose count reaches zero loses its key |
| RateLimiting.RateLimiter.CurrentPullsForNode | internal/ratelimiter/ratelimiter.go:90-94 | a missing node reads as zero |
| RateLimiting.AcquireHolds | internal/ratelimiter/ratelimiter.go:50-64 | a grant is given exactly when every slot covering the node is below its limit, and changes exactly those slots by one |
| RateLimiting.ReleaseHolds | internal/ratelimiter/ratelimiter.go:67-80 | a release changes exactly the covering slots by one, down to zero at most |
| RateLimiting.ReleaseUndoesAcquire | internal/controller/prepullimage_controller.go:215-220 | the failed-start path leaves the limiter as it was |
| RateLimiting.AnyInterleavingStaysInRange | internal/ratelimiter/ratelimiter.go:50-80 | for every interleaving of calls the counters stay in range, keys exist exactly for positive counts, and the cluster counter never exceeds the sum of the node counters |
| RateLimiting.HonestInterleavingIsExact | internal/ratelimiter/ratelimiter_test.go:165-191 | if callers give back only what is out, every counter is exactly the slots out, the cluster counter is the sum, and an empty desk means a fresh limiter |
| Naming.NamesFit | internal/puller/job.go:62-70 | job and PrePullImage names have at most 63 characters; job names keep the prefix |
| Naming.JobNameDecodes | internal/puller/job.go:62-70 | for a PrePullImage name of at most 43 characters the job name gives back name and node hash |
| Naming.ShortNamesCollideOnlyWhenEqual | internal/puller/job.go:62-70 | such names are equal exactly when PrePullImage names and node hashes are |
| Naming.NodesShareAJobExactlyWhen | internal/puller/job.go:65-69 | for every name length, two nodes share a job exactly when the hash characters that survive the cut agree |
| Naming.ImagesShareAPrePullImageExactlyWhen | internal/controller/deployment_controller.go:435-443 | the same for two images of one deployment |
| Naming.PullNamesOfShortDeployments | internal/controller/deployment_controller.go:435-443 | through both controllers, deployment names of at most 34 characters give distinct jobs to distinct deployment, image hash and node hash |
| Cluster.RecountAddsUp | internal/controller/prepullimage_controller.go:300-306 | the four status counts add up to the number of entries |
| Cluster.PhaseFromCounts | internal/controller/prepullimage_controller.go:312-329 | the phase read off the counters is the one the entries call for |
| Controller.ApiServer.CreateJob | internal/puller/job.go:143-149 | creates unless the name is taken; a refused call creates nothing, a timed-out one may have created |
| Controller.ApiServer.DeleteJob | internal/puller/job.go:165-176 | removes the job unless the call fails |
| Controller.ApiServer.CleanupJobs | internal/puller/job.go:242-255 | deletes the labelled jobs one by one, stops at the first error, touches no other job, and reports success exactly when no call on a labelled job failed |
| Controller.PrePullImageReconciler.StartPullJob | internal/controller/prepullimage_controller.go:411-431 | a created or adopted job makes the entry Pulling under its job name; any other error leaves it |
| Controller.PrePullImageReconciler.CheckJobStatus | internal/controller/prepullimage_controller.go:434-450 | succeeded with a succeeded pod, failed with a failed pod only or without a job; a failed call reports an error |
| Controller.PrePullImageReconciler.TryStart | internal/controller/prepullimage_controller.go:213-229 | the Pending branch takes a slot first, and a failed creation gives it back: the limiter moves only if the entry starts |
| Controller.PrePullImageReconciler.CheckPull | internal/controller/prepullimage_controller.go:231-289 | the Pulling branch does what the job status and the retry limit call for, to entry, limiter, store and metrics |
| Controller.PrePullImageReconciler.RunPass | internal/controller/prepullimage_controller.go:206-297 | the loop with its four counters reaches the state of the pass function after all entries |
| Controller.PrePullImageReconciler.Summarise | internal/controller/prepullimage_controller.go:299-332 | summary and phase from the counters; completion time is now when nothing is left to do and unchanged otherwise |
| Controller.PrePullImageReconciler.HandleInProgress | internal/controller/prepullimage_controller.go:203-346 | refines the in-progress transition, lost write included |
| Controller.PrePullImageReconciler.HandleDeletion | internal/controller/prepullimage_controller.go:118-144 | releases the slot of every Pulling entry, cleans up, removes the finalizer; a failing cleanup does not stop it |
| Controller.PrePullImageReconciler.HandlePending | internal/controller/prepullimage_controller.go:147-200 | one fresh Pending entry for each named node, or each listed one if none is named; Completed without nodes |
| Controller.PrePullImageReconciler.HandleCompleted | internal/controller/prepullimage_controller.go:349-369 | deletes past the time to live, otherwise asks for the remaining time |
| Controller.PrePullImageReconciler.Reconcile | internal/controller/prepullimage_controller.go:69-115 | the entry point refines the visit step of the transition system |
| Pass.EntriesMove | internal/controller/prepullimage_controller.go:209-297 | whatever the world answers, every entry makes one of four moves or none, and a started entry carries its own job name |
| Pass.CountersAreARecount | internal/controller/prepullimage_controller.go:206-297 | the counters kept on the way equal a recount, and a requeue is asked for exactly when some entry waits or is still pulling |
| PullOutcomes.StatusFromPods | internal/puller/job.go:194-210 | a job runs until a pod of it has finished; one succeeded pod is a success whatever failed before, and without one a single failed pod is a failure |
| PullOutcomes.PassOutcome | internal/controller/prepullimage_controller.go:209-297 | what every entry comes to in a pass, from the counters and the pods its turn finds: done, retried, failed for good, still pulling, started or waiting; a start leaves it with the job that was there or a new one of its own, and no turn touches the job of another name |
| PullOutcomes.PassLeavesTraces | internal/controller/prepullimage_controller.go:334-346 | what a pass did to limiter, metrics and jobs stays done when its result cannot be written; the record takes over the entries exactly if it can |
| PullOutcomes.FinishedPullIsNoticed | internal/controller/prepullimage_controller.go:231-289 | in every reachable state: a Pulling entry whose job has a finished pod, or is gone, leaves Pulling at the next recorded reconcile that can read it, whatever happens meanwhile |
| Lifecycle.PassConcludes | internal/controller/prepullimage_controller.go:299-345 | after any pass the summary is a recount, the phase is what the entries call for, and the requeue decision is exact |
| Lifecycle.PassLowersRank | internal/controller/prepullimage_controller.go:209-297 | the termination measure never rises over a pass and falls if any status changes |
| Lifecycle.StepForward | internal/controller/prepullimage_controller.go:103-112 | in every step phases only move forward, terminal records never change, entries only make the listed moves |
| Lifecycle.RunsKeepAllOk | internal/controller/prepullimage_controller.go:69-346 | every reachable state keeps the invariants of every record and of the limiter |
| Lifecycle.EveryRecord | internal/controller/prepullimage_controller.go:177-328 | in every reachable state: one entry per listed node, summary adds up, phase terminal exactly when all entries are and Completed exactly when all are, starts match retries, a Failed entry was started once more than its retry limit |
| Ledger.PassConservesSlots | internal/controller/prepullimage_controller.go:209-297 | a pass whose Pulling entries are held changes each counter by exactly the change in Pulling entries, written or not |
| Ledger.FinalizerBalances | internal/controller/prepullimage_controller.go:122-128 | the finalizer gives back every Pulling entry's units, down to zero at most |
| Ledger.RunsInLedger | internal/controller/prepullimage_controller.go:203-297 | for every run and slot: the counter exceeds the Pulling entries by at most the lost starts since the last restart, and falls short by at most one limit per restart and the lost stops |
| Ledger.RestartBound | cmd/main.go:186-187 | after k restarts at most k + 1 limits' worth of entries are Pulling on every node and in the cluster, plus lost stops |
| Ledger.LeakIsExact | internal/controller/prepullimage_controller.go:334-336 | before the first restart and without lost stops, every counter is exactly the Pulling entries it stands for plus the starts on it whose record was lost; so it is exact if and only if there was none |
| Ledger.ExactWithoutLosses | internal/ratelimiter/ratelimiter.go:50-80 | with no restart and no lost write every counter equals the Pulling entries it stands for, so these respect the limit |
| Ledger.ShortfallNeverGrows | internal/ratelimiter/ratelimiter.go:67-80 | between restarts no step that records its stops widens the gap between Pulling entries and counter |
| Jobs.RunsKeepJobs | internal/controller/prepullimage_controller.go:203-297 | in every reachable state each job of a live PrePullImage is for the image, node and name of the entry that made it; if it is bound, that entry is not Pending, knows it by name, and is Pulling while it runs; if it is spent, it has ended |
| Ties.RunsKeepTies | internal/controller/prepullimage_controller.go:262-269 | over every run, loose, spent and orphaned jobs come only from lost writes, crashes and timed-out creations, from failed deletions, and from failed cleanups |
| JobLimit.RunsPaid | internal/controller/prepullimage_controller.go:213-229 | for every run and slot, Pulling entries and loose jobs together are within what the limiter holds, one limit per restart, and what was lost on the slot: the slot a lost start leaves taken pays for its job |
| JobLimit.UnfinishedJobsWithinLimit | internal/controller/prepullimage_controller.go:411-431 | the end-to-end limit on unfinished jobs per node and cluster, for every run: k + 1 limits after k restarts, plus the lost stops and timed-out creations on the slot and the jobs failed cleanups left running on it; lost starts, failed deletions, adoption and expiry cost nothing |
| JobLimit.ContainedRunsWithinLimit | internal/controller/prepullimage_controller.go:411-431 | if cleanup does not fail, no creation reports an error after it worked and no reconcile is cut short, only restarts and lost stops add to the limit, although writes, reads, other creations and deletions fail |
| JobLimit.TidyRunsWithinLimit | internal/controller/prepullimage_controller.go:411-431 | if moreover no write fails, the unfinished jobs are at most the Pulling entries, and these at most k + 1 limits after k restarts; deletions of failed jobs may fail |
| JobLimit.AllowedPulls | internal/ratelimiter/ratelimiter.go:34-64 | without restarts the unfinished jobs never exceed the numbers the operator was given, in the cluster and on every node; ten and two in place of useless ones |
| Books.PassBooks | internal/controller/prepullimage_controller.go:222-283 | over a pass the gauge follows starts and stops, and the success and failure counters follow Completed and Failed entries |
| Books.RunsKeepBooks | internal/controller/prepullimage_controller.go:121-128 | for every run, restarts and crashes included, every pull ever started is Pulling, succeeded, failed, retried or dropped, up to lost records; the gauge is the Pulling entries less those inherited at the last restart, up to lost records; a lost retry is a lost stop |
| Books.GaugeIsExact | internal/controller/prepullimage_controller.go:222-283 | with no lost write and no restart gauge, limiter and Pulling entries agree, and pulls started equal gauge, successes, failures, retry counts and dropped pulls |
| Soundness.AdoptedIsOwn | internal/controller/prepullimage_controller.go:413-421 | if names do not clash, a job found under an entry's name is for its image and node, unless it is orphaned |
| Soundness.CompletedMeansPulled | internal/controller/prepullimage_controller.go:241-254 | over every run without clashes a Completed entry's image was pulled on its node, unless the entry's last start found the job of another pull left behind by a failed cleanup |
| Soundness.CompletedMeansPulledIfCleanedUp | internal/controller/prepullimage_controller.go:131-134 | and without exception if cleanup never fails |
| InterleavedSoundness.InterleavedCompletedMeansPulled | internal/controller/prepullimage_controller.go:241-254 | the same for every interleaving of passes at every moment, for the entries of every worker's copy and of every record |
| InterleavedSoundness.InterleavedSoundIfCleanedUp | internal/controller/prepullimage_controller.go:131-134 | and without exception if cleanup never fails |
| Soundness.OneNamespaceNeverClashes | internal/puller/job.go:55-70 | short names in one namespace and a hash that tells the nodes apart exclude clashes |
| Soundness.OperatorIsSound | internal/puller/job.go:55-70 | soundness of Completed, without exception, for the operator's own names, from conditions on submissions, listed nodes and cleanup alone |
| Delivery.TargetsAreServed | internal/controller/prepullimage_controller.go:147-200 | the reconcile that takes up an object gives it one Pending entry for every node it names, or for every node listed if it names none, in order |
| Delivery.TakenUpInTwoReconciles | internal/controller/prepullimage_controller.go:90-100 | a submitted object first gets its finalizer and nothing else, and is taken up by the next reconcile whose calls succeed |
| Delivery.EveryTargetPulled | internal/controller/prepullimage_controller.go:372-408 | the promise to the user: under the conditions of Soundness.OperatorIsSound, in every run, an object whose phase is Completed has had its image pulled on every node it names, or on every node listed when it was taken up |
| Delivery.WithdrawalCompletes | internal/controller/prepullimage_controller.go:118-144 | the reconcile of a withdrawn object gives back its slots, removes the jobs that carry its name and no other, and removes its record unless that write fails |
| Delivery.WithdrawalSparesOthersExactlyWhen | internal/puller/job.go:226-255 | it spares the jobs of all other objects exactly if none of theirs carries its name |
| Delivery.ErrsExactlyWhen | internal/controller/prepullimage_controller.go:69-115 | exactly when a reconcile returns an error, and then no record has changed; a missing object needs no further look |
| Witnesses.ClashBreaksSoundness | internal/controller/prepullimage_controller.go:413-421 | if pulls of two PrePullImages get one job name, some run in which no call fails records the second as Completed though it never happened |
| Witnesses.ClashWithinOne | internal/controller/prepullimage_controller.go:413-421 | the same for two nodes of one PrePullImage |
| Witnesses.LeftoverBreaksSoundness | internal/controller/prepullimage_controller.go:131-134 | after a failed cleanup, a PrePullImage submitted again for another image is recorded as Completed though that image was never pulled; nothing else fails |
| Witnesses.OneLostWriteStarves | internal/controller/prepullimage_controller.go:334-336 | for all limits: one lost status write of an object with at least as many distinct nodes as the cluster limit starves everything until a restart |
| Witnesses.LeftoverRunsOver | internal/controller/prepullimage_controller.go:131-134 | one failed cleanup puts two running jobs on a cluster that allows one |
| Witnesses.TimeoutRunsOver | internal/controller/prepullimage_controller.go:215-220 | so does one creation that reports an error although the job was made |
| Witnesses.LostStopPullsOver | internal/controller/prepullimage_controller.go:334-336 | one lost record of a stop puts two Pulling entries on a cluster that allows one |
| Witnesses.WakeUpIsLost | internal/controller/prepullimage_controller.go:349-369 | a flawless run, then a reconcile at age exactly the time to live that changes nothing and asks for no other |
| Witnesses.NoNodesNeverExpires | internal/controller/prepullimage_controller.go:157-165 | a flawless run after which a finished PrePullImage never changes again unless its deletion is requested |
| FreshAttempts.EveryStartIsFresh | internal/controller/prepullimage_controller.go:256-270 | if names tell entries apart, in every reachable state every entry's last start, retries included, found no job under its name but a loose, spent or orphaned one, and a bound job it watches is its own |
| FreshAttempts.EveryAttemptHasItsOwnJob | internal/controller/prepullimage_controller.go:256-270 | if moreover no write is lost, no creation reports an error after it worked and no deletion of a job fails, every attempt is on a job made for it |
| Progress.SettlesWithinBudget | internal/controller/prepullimage_controller.go:256-283 | n entries with M retries see at most n(2M + 2) recorded status-changing passes, and are terminal when these are used up |
| Progress.PassWakes | internal/controller/prepullimage_controller.go:341-345 | a recorded pass is followed by another reconcile; it asks for none exactly when every entry is terminal or freshly started |
| Progress.WokenAgainExactlyWhen | internal/controller/prepullimage_controller.go:353-365 | every reconcile without error is followed by another, except at age exactly the time to live |
| Progress.ExpiresExactlyWhen | internal/controller/prepullimage_controller.go:349-369 | a reconcile whose calls succeed marks a live finished object for deletion exactly when it had target nodes and is older than the time to live; otherwise it changes nothing |
| Progress.FinishIsStamped | internal/controller/prepullimage_controller.go:311-314 | the reconcile that finishes an object stamps it with its own time |
| Progress.ExpiresAfterItsHour | internal/controller/prepullimage_controller.go:349-369 | from the reconcile that finishes an object on, through every run without a deletion request: its record stays as it is while it is looked at within the hour, each such look asks to come back when the hour is over, and the first one after it marks the object for deletion |
| Progress.NeverExpiresExactlyWhen | internal/controller/prepullimage_controller.go:157-165 | the record of a live finished object is unchanged through every run without a deletion request if and only if it was completed for lack of nodes |
| Progress.ForgottenIsLookedAtHourly | internal/controller/prepullimage_controller.go:368-368 | such an object is looked at every hour |
| Progress.ExpiryReleasesNothing | internal/controller/prepullimage_controller.go:121-128 | the finalizer of a finished object gives back no slot |
| Progress.PassMovesExactlyWhen | internal/controller/prepullimage_controller.go:209-297 | exactly when a pass changes some status: when a Pending entry's node would be granted a slot beforehand and its job can be made, or a Pulling entry's job is found to have ended when looked up |
| Progress.PassStartsExactlyWhen | internal/controller/prepullimage_controller.go:213-229 | without Pulling entries and with creations working, a pass starts a pull exactly when the limiter would grant a Pending entry's node beforehand |
| Progress.NoDeadlock | internal/controller/prepullimage_controller.go:213-229 | after any run, restarts and lost stops included, if nothing is Pulling anywhere the next pass of any InProgress object starts a pull, if no start lost its record since the last restart; in general if such starts leave a slot, and before the first restart and lost stop exactly then |
| Progress.StarvedForEver | internal/ratelimiter/ratelimiter.go:54-56 | a full limiter with nothing Pulling stays so under every step but a restart |
| Settling.CooperativeVisitMoves | internal/controller/prepullimage_controller.go:209-297 | a visit without failing calls to an unsettled object makes a move, if a job of its own has ended or nothing is pulling anywhere |
| Settling.RoundMoves | internal/controller/prepullimage_controller.go:203-346 | any number of PrePullImages sharing the limiter: a round that gives each unsettled one such a visit makes at least one move, with restarts, deletions and failing reads in between |
| Settling.EverythingSettlesAfterAnyRun | internal/controller/prepullimage_controller.go:203-346 | after every run without lost starts since the last restart, all PrePullImages are terminal after as many rounds as they have moves ahead together |
| Settling.NoDeadEnds | internal/controller/prepullimage_controller.go:203-346 | from every such state some continuation in which no call fails settles everything |
| Settling.Settles | internal/controller/prepullimage_controller.go:203-346 | a PrePullImage nobody competes with is terminal after as many cooperative visits as it has moves ahead itself |
| Interleaving.VisitReadsOwnRecord | internal/controller/prepullimage_controller.go:78-112 | a reconcile reads and writes no record but its own |
| Interleaving.UninterruptedIsVisit | internal/controller/prepullimage_controller.go:203-346 | the parts of a pass, one by one with nothing in between, are the reconcile of the other modules |
| Interleaving.InterleavedLedger | internal/ratelimiter/ratelimiter.go:50-80 | for every interleaving of passes, at every moment: the restart bound on Pulling entries, and the exact ledger before the first restart and lost stop |
| InterleavedJobs.InterleavedJobsWithinLimit | internal/controller/prepullimage_controller.go:203-297 | the end-to-end limit on unfinished jobs for every interleaving of passes, at every moment, with the same charges |
| InterleavedJobs.TidyActsWithinLimit | internal/controller/prepullimage_controller.go:203-297 | if every pass is recorded, cleanup does not fail and no creation reports an error after it worked, only restarts add to the limit |
| Policies.DeploymentMatchesPolicy | internal/controller/deployment_controller.go:180-204 | true exactly when every selected label is carried with its value, some label is selected, and the namespace is listed, or none is |
| Policies.SelectedExactlyWhen | internal/controller/deployment_controller.go:198-203 | selected means: every selected label is carried with the selected value, at least one label is selected, and the namespace is listed if any is |
| Policies.EveryLabelDecides | internal/controller/deployment_controller.go:202-203 | changing the value of one selected label, or dropping it, deselects a deployment; labels that are not selected make no difference |
| Policies.CountMatchingDeployments | internal/controller/prepullpolicy_controller.go:111-141 | the nested loop computes the count over the listed namespaces; a failed listing fails the count |
| Policies.CountOverIsCovered | internal/controller/prepullpolicy_controller.go:121-138 | the loop counts a deployment as often as the list covers its namespace |
| Policies.CountsAgreeExactlyWhen | internal/controller/prepullpolicy_controller.go:111-151 | the count is the number of selected deployments in every cluster exactly when the namespace list has no duplicate and no empty name |
| Policies.NoLabelsCountNothing | internal/controller/prepullpolicy_controller.go:144-147 | a selector without labels selects and counts nothing |
| Detector.ExtractImages | internal/controller/deployment_controller.go:207-219 | containers, then init containers under prefixed keys, later ones winning |
| Detector.GatherIsCompleteExactlyWhen | internal/controller/deployment_controller.go:207-219 | every container's image is extracted exactly when no two with one key differ in image |
| Detector.ExtractsEveryImageExactlyWhen | internal/controller/deployment_controller.go:207-219 | for distinct container names: exactly one key for each container and init container, every init container's image, and a container's image exactly when no init container with another image takes its key |
| Detector.FindChangedImages | internal/controller/deployment_controller.go:241-258 | lists the current image of every changed key once, in some order; empty exactly when nothing changed |
| Detector.ListedOrKnown | internal/controller/deployment_controller.go:241-258 | every current image is listed or was the last known image of its key |
| Detector.ListedIsChanged | internal/controller/deployment_controller.go:241-258 | every listed image is the current one of a key that had another image last, or none |
| Detector.UnknownListsEverything | internal/controller/deployment_controller.go:222-258 | without a readable annotation every image is listed, once for each of its keys |
| Detector.ImagesEqualIsEquality | internal/controller/deployment_controller.go:261-271 | map equality when no image changed; in general exactly if no empty image stands for a missing key |
| Detector.ImagesEqualCanBeFooled | internal/controller/deployment_controller.go:261-271 | two different maps it takes for equal |
| Detector.EnsureLeaves | internal/controller/deployment_controller.go:324-432 | a successful creation leaves a PrePullImage for the image and touches no other name |
| Detector.EnsuredExactlyWhen | internal/controller/deployment_controller.go:324-432 | exactly when a creation succeeds; an object in use for another image is marked for deletion and not replaced before it is gone |
| Detector.StandingIsLeftAlone | internal/controller/deployment_controller.go:335-338 | an object that is there for the image is left as it is, running or not |
| Detector.EnsureIsARun | internal/controller/deployment_controller.go:329-425 | a creation is a run of the transition system, of at most one deletion request and one submission with the given nodes and retry limit, three for none |
| Detector.AllStandExactlyWhen | internal/controller/deployment_controller.go:143-151 | after all creations succeeded every changed image has its PrePullImage exactly when no two different ones share a name |
| Detector.LongNameLosesImage | internal/controller/deployment_controller.go:435-443 | for a deployment whose name has 62 or more characters the second of two images replaces the first although both creations succeed |
| Detector.UpToDateIsFixpoint | internal/controller/deployment_controller.go:112-124 | with an up-to-date annotation a reconcile changes nothing, whatever the API answers |
| Detector.DetectIsARun | internal/controller/deployment_controller.go:143-151 | a reconcile of a deployment changes the PrePullImages as a run of the transition system does: it only deletes and submits, for changed images, under the deployment's own names, with the listed nodes and the policy's retry limit; so the theorems on runs hold of what it makes |
| Detector.RetryDisturbsNothing | internal/controller/deployment_controller.go:143-157 | when every changed image has its object, as after a failed annotation write, a reconcile leaves all objects alone and, if nothing fails, records the annotation |
| Detector.DetectErrsExactlyWhen | internal/controller/deployment_controller.go:87-159 | exactly when a reconcile of a deployment returns an error, and then the annotation is kept; without an error it never asks for another |
| Detector.RecordsExactlyWhen | internal/controller/deployment_controller.go:112-159 | exactly when a reconcile without error leaves the annotation up to date |
| Detector.NoNodesRecordsNothing | internal/controller/deployment_controller.go:131-141 | an input with a changed image and no target node: nothing is recorded, and no retry is asked for |
| Detector.AnnotationRemembers | internal/controller/deployment_controller.go:273-286 | over every run, before an image entered the annotation a PrePullImage for it stood under the name the deployment gives it |
| Detector.FirstMatchIsFirst | internal/controller/deployment_controller.go:163-177 | the policy found is the first in the list that selects the deployment, and none is found exactly when none selects it |
| Detector.DeploymentReconciler.GetMatchingPolicy | internal/controller/deployment_controller.go:163-177 | the first policy that selects the deployment |
| Detector.DeploymentReconciler.CreatePrePullImage | internal/controller/deployment_controller.go:324-432 | leaves everything as it is if the object is there for the image; otherwise success means a new object for the image with the given nodes and retry limit, 3 for none |
| Detector.DeploymentReconciler.Reconcile | internal/controller/deployment_controller.go:70-160 | refines the detector's transition, with the annotation written only after every creation |

## Left out

- Settling.EverythingSettlesAfterAnyRun: that every unsettled object is visited in each round is the work queue's part, which is not modelled.
- FreshAttempts.EveryStartIsFresh: assumes that no two entries share a job name, so it says nothing of a node listed twice.
- PullOutcomes.FinishedPullIsNoticed: assumes that no other entry of the same object goes by the job's name.
- Detector.ExtractsEveryImageExactlyWhen: assumes what Kubernetes demands of container names; without it Detector.GatherIsCompleteExactlyWhen applies.
- Interleaving.InterleavedLedger: the limiter and API calls for one entry are taken together; other passes come between entries, not between these calls.
- Detector.AnnotationRemembers: speaks of PrePullImages that stood at some time, not of their still being there.
- The Kubernetes client, watches, caches and leader election, the webhook and TLS set-up; the API is a store whose answers are inputs.
- Listing and filtering of target nodes by readiness: the list is an input of the step.
- Time stamps other than the completion time, durations, error texts, conditions, events, logs, histograms and per-phase gauges.
- Time-outs, resources, pull secrets, tolerations and the pod template of a job.
- 32-bit widths: counters and retry counts are bounded by the number of entries and the retry limit.
- SHA-256 and the JSON text of the annotation: the hash is any function to eight characters, the annotation a map or unreadable.
- Edits of a PrePullImage's image or retry limit during a run, and finalizers of others.
- Pods of a deleted job that are still shutting down.
- The policy controller's status fields and periodic requeue.
- Helm chart, manifests, generated deep copies, command-line wiring, end-to-end tests.
