# A model of the Flink chaos operator

This project models the controller that runs `ChaosRun` resources: the reconciler with its phases, the
scenario drivers it calls, the safety checks that admit a run, the observers that decide whether a workload
recovered, and the event stream the API server offers. It proves what these parts promise together, over
whole runs, with any number of ChaosRuns and with failures anywhere.

## How it is built

A **world** (`Cluster.World`) is one namespace: the stored runs, the NetworkPolicies, the pods with their
ephemeral containers, and a clock. One **reconcile** works on a copy of one stored run with defaults filled
in. Everything the outside answers during it — the resolved target, the checkpoint probe, the Flink REST
results, the pairs the shuffle swaps, the order of a policy listing, and for every API call whether it fails
and whether a failed call took effect all the same — is collected in an `Env` over which every theorem
quantifies. A process that dies half way is a reconcile in which every later call fails without effect.

* `ChaosApi` holds the resource, its defaults and its validation.
* `Reconciliation.Reconciler` is the reconciler: methods that change the in-memory run step by step and patch
  it back. `Partition`, `Containers` and `PodKill` hold the drivers, `Safety` the checker, `Observers` the
  observers. Each method is proved to do exactly what a function of the old state says; `Lifecycle` puts
  those functions together into one reconcile.
* `Execution` is the system: reconciles of any runs in any order, interleaved with users creating, aborting
  and deleting runs, pods and foreign policies changing, and time passing. `Invariants` proves that every
  step keeps an invariant, and `Guarantees`, `Deadlines`, `Verdicts`, `Recovery`, `Settlement`, `Admission`,
  `Bookkeeping`, `Aborts`, `Injections` and `TaskManagers` draw the results about whole runs from it. `Witnesses`
  and `Endings` build executions that reach the states these results warn about.
* `Outcomes`, `Guards`, `Deeds`, `PartitionTraffic` and `Specs` say what one reconcile, one check, one injection and
  one specification amount to, in the fields, numbers and labels a user sees and not in terms of the functions above.
* `NetworkPolicies` has the policy builder and the networking.k8s.io/v1 rules for what a set of policies lets
  through; `TrafficControl`, `Text` and `Ephemeral` have the tc command printer and container naming; `Sse`
  has the event stream and its connection limit.

Only pure functions and lemmas state the theorems, since those cannot call methods; the contract of each
method is the bridge between the imperative code and the function the theorems are about.

## Where the code does not do what it is meant to do

The model follows the code. Each of these is proved, with the condition under which the intent does hold.

* `checkpointWaitTimeout` (docs/api-reference.md:124) does not bound the wait. Every Pending reconcile stamps
  `startedAt` again, so the timeout is compared with the duration of one probe, plus the fraction of a second the
  stored timestamp loses (`Deadlines.CheckpointWaitMeasuresOneProbe`). A checkpoint that never becomes stable
  keeps a run Pending for ever while no probe is slower than the timeout less a second
  (`Deadlines.UnstableCheckpointWaitsForever`, `Witnesses.WaitingIsReachable`).
* An observed NetworkPartition is never polled and never Passed, although docs/scenarios/network-chaos.md:220
  says that observed recovery passes: defaulting always gives it a duration, and the branch for a duration
  comes before the poll (`Verdicts.PartitionsNeverPass`). An execution holds one next to a workload that the
  observer would call ready, and ends Inconclusive (`Endings.HealthyPartitionIsInconclusive`).
* An observed ResourceExhaustion always passes, while docs/scenarios/resource-exhaustion.md:124 asks for a job
  that returned to a healthy state (`Verdicts.VerdictIsDeterminedByPolls`). An execution passes without a poll
  and without a pod left (`Endings.DeadWorkloadPasses`).
* The port of a CIDR partition is put on the rule that *allows* everything outside the CIDR, so with a port
  nearly all egress is lost (`NetworkPolicies.PortReadingHoldsIffNoPort`).
* In Explicit mode the minimum of remaining TaskManagers is checked against the count, not the list of names
  (`TaskManagers.ExplicitKillKeepsMinimumIffListIsShort`); an execution deletes both pods of a target that
  must keep one (`Witnesses.EveryPodKilledIsReachable`).
* A partition that becomes Failed is never cleaned up. It is clean only if it was so before and its first
  creation, if it came to one, had no effect (`Guarantees.FailedPartitionIsCleanIff`); only Failed runs can
  end with policies left (`Guarantees.WhoMayHoldPolicies`), and some do (`Witnesses.DirtyFailureIsReachable`).
* A terminal run that still carries the finalizer keeps it for ever, because the deletion branch is behind the
  terminal check (`Guarantees.TerminalFinalizerIsForever`). Every end keeps it but a regular one whose second
  patch succeeds (`Guarantees.EndingKeepsFinalizerIff`).
* A status patch that is lost after the driver has run makes the next reconcile inject again: a pod kill kills
  another pod (`Witnesses.LostPatchKillsAgain`), containers collide with their own names and the run fails
  (`Containers.SecondStartFails`). `Injections.InjectionIsTheLastIff` says which injections can be repeated, and
  `Injections.InjectionsAreBounded` counts them.
* A run can complete with a container of its own in a live pod that no record names
  (`Endings.UnrecordedContainerIsReachable`). `Bookkeeping.StartsAreOnRecordIff` says when the records are
  complete; containers started then are settled when the run ends (`Bookkeeping.StartedContainersAreSettled`).
* A deletion should run cleanup before it drops the finalizer (internal/controller/chaosrun_controller.go:116-118),
  but a container driver's Cleanup succeeds while its containers are at work, and they are not waited for
  (`Bookkeeping.DeletionDropsFinalizerIff`, `Endings.DeletedWhileStressedIsReachable`). A partition is clean then.
* Validation should rule out the panic of the script printer (internal/netchaos/tc/builder.go:131-134), but its
  case-insensitive rate pattern also takes the Kelvin sign for a k, and a CIDR is validated only with an
  external target (`TrafficControl.ScriptPanicsIffTextUnsafe`, `TrafficControl.KelvinRatePanics`).
* The connection limiter counts refused requests until they undo their increment, so it can refuse a client
  while a slot is free (`Sse.RefusedIffFull`, `Sse.RefusedWithAFreeSlot`).
* In the Kubernetes observer the count comparison (internal/observer/kubernetes/observer.go:101-104) is always
  true; only the pod names matter (`Observers.ObserveKubernetes`).

## Model

| member | source | states |
|---|---|---|
| Guarantees.NoOrphanPolicies | internal/controller/chaosrun_controller.go:749-846 | in every execution, whatever fails, crashes or is aborted, a run that is Completed or Aborted has no NetworkPolicy with its run-name label |
| Guarantees.ReconcileTouchesOnlyItsOwn | internal/scenario/networkpartition/driver.go:135-157 | a reconcile changes neither another run nor any policy without this run's label, whether it was created by another run or by a user |
| Guarantees.WhoMayHoldPolicies | internal/controller/chaosrun_controller.go:409-421 | labelled policies exist only for a partition that is no dry run and is Injecting, Observing, CleaningUp or Failed |
| Guarantees.FailedPartitionIsCleanIff | internal/controller/chaosrun_controller.go:206-421 | for every step that turns a partition Failed, by validation, resolution, rejection, driver error or deadline: it is clean iff it was clean before and, if the driver had policies to create, its first creation had no effect; only a foreign policy with one of the two names is excluded |
| PartitionTraffic.ObservedPartitionCutsOff | internal/scenario/networkpartition/driver.go:69-236 | a partition that becomes Observing has cut off exactly the traffic its specification names: JobManager or TaskManager pods in the given directions, or TaskManager egress but to other IPv4 places on the port |
| PartitionTraffic.InjectedPartitionBlocksExactly | internal/scenario/networkpartition/driver.go:103-116 | the same for every successful injection into a cluster where nothing else isolates the pod |
| PartitionTraffic.PartitionInjectsIff | internal/scenario/networkpartition/driver.go:161-182 | without API errors injection succeeds iff the target is one of the four and an external one has a CIDR |
| PartitionTraffic.PartitionRecordsItsPolicies | internal/scenario/networkpartition/driver.go:121-127 | the record names the policies of the direction, created or found, and every pod of the target |
| PartitionTraffic.RepeatedPartitionIsTheSame | internal/scenario/networkpartition/driver.go:223-229 | an injection repeated after a lost patch changes no policy |
| Guarantees.PhaseNeverGoesBack | internal/controller/chaosrun_controller.go:187-201 | no execution takes a run to an earlier phase |
| Guarantees.TerminalIsFinal | internal/controller/chaosrun_controller.go:112-114 | the status and finalizer of a terminal run never change again |
| Outcomes.EndedRunIsLeftAlone | internal/controller/chaosrun_controller.go:112-114 | a reconcile of an ended run changes nothing at all, whether it is deleted, aborted or still has policies |
| Guarantees.TerminalFinalizerIsForever | internal/controller/chaosrun_controller.go:112-137 | a terminal run with the finalizer keeps it and is never removed, even when deleted |
| Guarantees.EndingKeepsFinalizerIff | internal/controller/chaosrun_controller.go:759-843 | for every step that ends a run: it keeps the finalizer iff it had it and did not end regularly out of CleaningUp with a second patch that succeeded |
| Guarantees.InjectsOnlyWhenCleared | internal/controller/chaosrun_controller.go:333-408 | a reconcile that disturbs pods or adds policies starts in Injecting with nothing on record, passed every check on the same target, and is neither a dry run nor aborted |
| Guards.DisturbingMeetsEveryGuard | internal/safety/checker.go:69-116 | a reconcile that disturbs the cluster is in no system namespace, on no shared cluster without opt-in, leaves enough TaskManagers, is within the concurrency limit and the caps, and has the opt-ins for checkpoint storage and TaskManager-wide partitions |
| Guards.PassesIffGuardsAreMet | internal/safety/checker.go:69-301 | a run passes iff it meets all these guards; the 32-bit narrowing refuses more only from two billion pods on |
| Guards.AnswerIsStored | internal/controller/chaosrun_controller.go:369-392 | a stored reconcile fails the run with SafetyChecksPassed false and touches nothing iff a guard is not met, else the condition is true |
| Guards.RejectionNamesAGuard | internal/safety/checker.go:120-301 | the rejection names a guard that is not met, and the namespace, sharing and count guards come first in this order |
| Outcomes.RecordedInjectionMovesOn | internal/controller/chaosrun_controller.go:338-341 | a run with injected pods on record changes nothing in the cluster and becomes Observing iff the patch succeeds |
| Outcomes.UnresolvedTargetFails | internal/controller/chaosrun_controller.go:346-360 | without a target the run fails with TargetResolved false and nothing is touched |
| Outcomes.DryRunCompletes | internal/controller/chaosrun_controller.go:395-405 | a checked dry run completes as Inconclusive with the target's pods as selected and nothing injected |
| Outcomes.InjectingIsServed | internal/controller/chaosrun_controller.go:408-466 | with a first patch that succeeds: the driver's pods and the exact number of resolved TaskManagers are stored, the finalizer and Observing follow their patches, a driver error fails the run, a panic stores nothing |
| Outcomes.LostInjectionIsNotStored | internal/controller/chaosrun_controller.go:449-451 | without that patch the cluster has changed and no run has |
| Deeds.PodKillIsServed | internal/scenario/tmpodkill/driver.go:98-198 | a random kill without API errors removes exactly the pods it records, as many as asked for and available, distinct and of the target |
| Deeds.KillDeletesTheSelection | internal/scenario/tmpodkill/driver.go:98-136 | a successful kill removes its selection and nothing else: the given list, or the asked number of target pods |
| Deeds.KillSucceedsIff | internal/scenario/tmpodkill/driver.go:117-136 | without API errors a kill fails iff an Explicit list names an unknown pod |
| Deeds.ChaosIsServed | internal/scenario/networkchaos/driver.go:98-153 | a stored container injection has one container and one record, stamped and named by position, in every pod of the target or earlier selection |
| Guarantees.InjectionIsRecordedOnce | internal/controller/chaosrun_controller.go:338-341 | once injected pods are on record they never change, whatever happens |
| Guarantees.AbortedRunsEndAborted | internal/controller/chaosrun_controller.go:146-184 | a run with the abort condition is CleaningUp, Aborted, or Failed by the cleanup deadline |
| Outcomes.AbortIsHonoured | internal/controller/chaosrun_controller.go:146-184 | a stored abort is on record; a run that may have left chaos behind becomes CleaningUp and changes in nothing else, any other becomes Aborted and Inconclusive; a failed patch changes nothing |
| Aborts.LateAbortsAreIgnored | internal/controller/chaosrun_controller.go:139-146 | from a run that is cleaning up or has ended, two histories that differ only in setting and clearing its abort flag lead to worlds that differ at most in that flag: same status, finalizer, resources and other runs |
| Aborts.ChecksIgnoreAborts | internal/safety/checker.go:183-200 | a peer's abort flag does not change what the checks of another run say |
| Injections.InjectionsAreBounded | internal/controller/chaosrun_controller.go:338-341 | in every execution a run starts chaos at most once more than it loses an injection, never less often, and exactly as often while it may still inject |
| Injections.InjectionIsTheLastIff | internal/controller/chaosrun_controller.go:408-466 | a reconcile that injects leaves a run that can never inject again iff its first patch succeeds and the driver failed, named a pod, or the later patches succeed too |
| Injections.LossNeedsAFailedPatch | internal/controller/chaosrun_controller.go:446-464 | an injection can be repeated only if the first patch fails, or a later one when the target has no TaskManager |
| Guarantees.DryRunsAreHarmless | internal/controller/chaosrun_controller.go:395-405 | a dry run in any reachable world changes nothing in the cluster, is never Observing, and completes only as Inconclusive |
| Witnesses.DirtyFailureIsReachable | internal/controller/chaosrun_controller.go:753-772 | an execution from an empty namespace to a Failed partition with both policies and with its finalizer |
| Witnesses.WaitingIsReachable | internal/controller/chaosrun_controller.go:224-240 | a run with the default timeout meets the hypotheses of the endless wait from its creation on, for probes of up to four minutes |
| Endings.HealthyPartitionIsInconclusive | internal/controller/chaosrun_controller.go:593-622 | an execution in which a partition is held next to a workload the observer would call ready and completes as Inconclusive |
| Endings.DeadWorkloadPasses | internal/controller/chaosrun_controller.go:565-570 | an execution in which a stress run is never polled, has no pod left, and completes as Passed |
| Endings.UnrecordedContainerIsReachable | internal/controller/chaosrun_controller.go:449-451 | an execution that completes with a started container in a live pod and not on record |
| Endings.DeletedWhileStressedIsReachable | internal/controller/chaosrun_controller.go:119-137 | an execution in which a deleted run loses its finalizer while its container is at work |
| Witnesses.EveryPodKilledIsReachable | internal/safety/checker.go:147-168 | an execution in which an Explicit run with the default minimum of one deletes both pods of its target |
| Witnesses.LostPatchKillsAgain | internal/controller/chaosrun_controller.go:408-451 | an execution in which a random kill of one pod kills two because its first patch is lost |
| Invariants.EveryReachableWorldIsSound | internal/controller/phases.go:29-90 | every execution keeps, for every run: endedAt set iff terminal, no verdict and no recovery before CleaningUp, verdict fixed by Failed and Aborted, only the own scenario's records, and the abort, dry-run and policy invariants |
| Invariants.NextKeepsInv | internal/controller/chaosrun_controller.go:89-201 | every single event, including a reconcile cut short at any write, keeps that invariant |
| Invariants.CleanUpKeepsTheRest | internal/controller/chaosrun_controller.go:774-787 | Cleanup of any driver, failing or not, changes only the resource lists of the status, leaves pods alone, and removes only the run's own policies |
| Invariants.InjectKeepsTheRest | internal/controller/chaosrun_controller.go:888-900 | Inject of any driver, failing or not, writes only its own status fields, keeps existing policies, and adds only labelled ones |
| Deadlines.TwoReconcilesEndAnOverdueRun | internal/controller/chaosrun_controller.go:753-772 | beyond both deadlines, two reconciles whose patch succeeds end the run in any interleaving, even if Cleanup, observer and resolver always fail |
| Deadlines.OverdueReconcileAdvances | internal/controller/chaosrun_controller.go:529-588 | an overdue reconcile moves to a later phase when its patch succeeds and changes nothing otherwise |
| Deadlines.CappedChaosIsNotCutOff | internal/controller/chaosrun_controller.go:742-772 | in every execution, for a CleaningUp container run with caps within the grace, chaos on record that began inside the window ends no later than the deadline, and an error-free reconcile between the two ends the run regularly with every record marked |
| Deadlines.DefaultCapsAreNotCutOff | api/v1alpha1/chaosrun_validation.go:337-345 | the same for every spec that sets no caps |
| Deadlines.ExecKeepsCaps | internal/controller/chaosrun_controller.go:370-383 | in every execution chaos is on record only if its duration passed the check |
| Deadlines.CheckedDurationFitsTheGrace | internal/safety/checker.go:217-233 | passing the checks with caps within the cleanup grace bounds the duration the drivers use by that grace |
| Deadlines.UnstableCheckpointWaitsForever | internal/controller/chaosrun_controller.go:224-240 | with a timeout a second longer than the slowest probe, a checkpoint that is never stable leaves the run Pending after any execution |
| Deadlines.CheckpointWaitMeasuresOneProbe | internal/controller/chaosrun_controller.go:224-319 | an unstable checkpoint fails the run iff the time of this one probe, with the sub-second part of the clock, exceeds the timeout |
| Outcomes.PendingIsServed | internal/controller/chaosrun_controller.go:206-259 | an invalid spec fails the run; a valid one has its start stored and proceeds without a required or with a stable checkpoint, fails on a late unstable probe, and otherwise stays |
| Verdicts.VerdictIsDeterminedByPolls | internal/controller/chaosrun_controller.go:508-703 | from its creation in any reachable world on, the verdict of a completed, observed, non-dry run is a function of its persisted polls: pod kill passes iff some poll was ready, network chaos may also be Inconclusive by the last poll, exhaustion always passes |
| Verdicts.PartitionsNeverPass | internal/controller/chaosrun_controller.go:593-622 | an observed partition is never polled and ends Inconclusive or Failed |
| Outcomes.ObservingIsServed | internal/controller/chaosrun_controller.go:494-703 | what a stored observing reconcile writes: disabled, window over, partition held or due, observer error, poll stored, or recovery with its stamp, its seconds and the end it leads to |
| Outcomes.CleaningUpIsServed | internal/controller/chaosrun_controller.go:774-843 | in time, a reachable run ends iff the driver is answered, its chaos is over and the patch succeeds: Aborted iff asked for, else with the stored verdict or Passed; the finalizer goes with the second patch |
| Outcomes.LateCleanupFails | internal/controller/chaosrun_controller.go:753-772 | later than the timeout and five minutes after the start, the run fails and nothing is cleaned up |
| Recovery.PassedPodKillRecovered | internal/controller/chaosrun_controller.go:631-690 | a Passed pod kill became Passed in a reconcile that was possible, asked the observer inside the window and persisted the answer, and in that reconcile no injected pod was live, some TaskManager was, all were ready, and with REST a job was RUNNING and there were at least as many TaskManagers as were resolved for the injection |
| Recovery.ExecCounts | internal/controller/chaosrun_controller.go:438-441 | in every execution the recorded baseline is at least the number of TaskManagers resolved by the reconcile that injected |
| Settlement.EndedRunsAreSettled | internal/controller/chaosrun_controller.go:849-864 | a Completed or Aborted run has every container record marked and no policy on record |
| Settlement.MarksAreJustified | internal/scenario/networkchaos/driver.go:164-208 | in any reconcile, even one whose Cleanup stops half way, a record is newly marked only if its pod is absent, its container terminated, or its duration elapsed |
| Settlement.MarksWaitForTheDuration | internal/scenario/networkchaos/driver.go:192-200 | a record whose container is at work is marked only when the duration of the stored specification, or a minute without one, has passed since its injection |
| Settlement.CleanupMarksIff | internal/scenario/resourceexhaustion/driver.go:155-209 | an error-free cleanup in time marks exactly the records that were marked, are no longer at work, or are past that duration |
| Settlement.MarksAreNeverTakenBack | internal/scenario/resourceexhaustion/driver.go:155-200 | over a whole execution the recorded containers stay the same and marks only accumulate |
| Bookkeeping.StartsAreOnRecordIff | internal/controller/chaosrun_controller.go:408-451 | after a reconcile that starts containers all of them are on record iff the first patch succeeds and no update that took effect was reported as failed |
| Bookkeeping.StartedContainersStayOnRecord | internal/scenario/resourceexhaustion/driver.go:86-95 | a container started with complete records stays on record through every later execution |
| Bookkeeping.StartedContainersAreSettled | internal/controller/chaosrun_controller.go:789-827 | in every execution such a container is marked when the run is Completed or Aborted |
| Bookkeeping.DeletionDropsFinalizerIff | internal/controller/chaosrun_controller.go:119-137 | in every execution a deletion drops the finalizer iff Cleanup meets no error and the patch succeeds; a partition has no policy left then, and a container run is cleaned up iff its chaos is over |
| Admission.EachRunRespectsItsLimit | internal/safety/checker.go:176-212 | in every execution the active runs on a run's target that were admitted no later than it number at most its own limit |
| Admission.CommonLimitIsNeverExceeded | internal/safety/checker.go:176-212 | with one common limit, never more than that many runs are active on a target |
| Admission.AdmissionWasChecked | internal/controller/chaosrun_controller.go:370-392 | an admitted run is active on exactly the checked target, next to fewer peers than its limit |
| Admission.NoAdmissionNoNewTarget | internal/controller/chaosrun_controller.go:385-451 | no other reconcile makes a run active on a target it was not active on |
| TaskManagers.MinimumTaskManagersRemain | internal/safety/checker.go:147-168 | in Random mode a reconcile that deletes any pod leaves at least the minimum of resolved pods, for every shuffle and every failed deletion |
| TaskManagers.ExplicitKillKeepsMinimumIffListIsShort | internal/safety/checker.go:148-151 | an Explicit kill keeps a minimum iff the list of distinct names is short enough |
| TaskManagers.ExplicitCanKillEveryPod | internal/safety/checker.go:148-151 | in any world, an Explicit reconcile for two named pods out of two with a minimum of one passes the whole check and deletes both |
| Reconciliation.Reconciler.Reconcile | internal/controller/chaosrun_controller.go:89-201 | the API server becomes exactly what one reconcile of the specification yields; an unknown name changes nothing |
| Reconciliation.Reconciler.ReconcileDeleted | internal/controller/chaosrun_controller.go:119-137 | on deletion the finalizer goes after one Cleanup without error, and the status is not written |
| Reconciliation.Reconciler.ReconcileAbort | internal/controller/chaosrun_controller.go:146-184 | an abort goes through CleaningUp when the scenario may have injected, else ends the run |
| Reconciliation.Reconciler.ReconcilePending | internal/controller/chaosrun_controller.go:206-259 | an invalid spec fails; otherwise the start is stamped and the run moves on unless the checkpoint holds it |
| Reconciliation.Reconciler.LeavePending | internal/controller/chaosrun_controller.go:234-258 | once the start is stored the run moves on, waits or fails by the probe |
| Reconciliation.Reconciler.WaitForStableCheckpoint | internal/controller/chaosrun_controller.go:272-328 | proceeds iff the checkpoint is stable; fails the run iff it is unstable past the deadline |
| Reconciliation.Reconciler.ReconcileInjecting | internal/controller/chaosrun_controller.go:333-467 | re-entry, resolution error, rejection, dry run, driver error and injection each leave exactly the specified run and resources |
| Reconciliation.Reconciler.InjectAndRecord | internal/controller/chaosrun_controller.go:407-466 | what the driver did is recorded, a driver error fails the run, and a panic writes nothing |
| Reconciliation.Reconciler.PersistInjection | internal/controller/chaosrun_controller.go:449-466 | the record, the finalizer and the phase are written in that order and each failure keeps what was written before |
| Reconciliation.Reconciler.TransitionToObserving | internal/controller/chaosrun_controller.go:472-492 | stamps the start of the window and moves to Observing in one patch |
| Reconciliation.Reconciler.ReconcileObserving | internal/controller/chaosrun_controller.go:494-703 | disabled, timed out, held and polled runs become exactly as specified |
| Reconciliation.Reconciler.CloseWindow | internal/controller/chaosrun_controller.go:538-587 | an elapsed window settles the verdict by scenario and recovery and ends the run or cleans up |
| Reconciliation.Reconciler.ReconcileCleaningUp | internal/controller/chaosrun_controller.go:749-846 | deadline, failing, incomplete and complete cleanup leave exactly the specified run and resources |
| Reconciliation.Reconciler.SetOutcome | internal/controller/chaosrun_controller.go:802-820 | a cleaned-up run is Aborted iff the abort condition is true, else Completed with the stored verdict or Passed |
| Reconciliation.Reconciler.IsCleanupComplete | internal/controller/chaosrun_controller.go:849-864 | true iff no policy is on record and every container record is marked |
| Safety.CheckRun | internal/safety/checker.go:69-115 | returns the first check that rejects the target, in the order of the source, or none |
| Safety.CountActive | internal/safety/checker.go:183-200 | the loop counts the set of non-terminal other runs recorded on the target, each once |
| Safety.WrapNeverGains | internal/safety/checker.go:154-158 | the 32-bit subtraction never reports more remaining TaskManagers than there are |
| Partition.CleanupRemovesExactlyTheRun | internal/scenario/networkpartition/driver.go:135-157 | Cleanup keeps every policy of others, removes all of the run's when it succeeds, and keeps the status when it fails |
| Partition.InjectionAddsOnlyOwnPolicies | internal/scenario/networkpartition/driver.go:187-236 | injection changes no existing policy and everything it adds carries the run's label |
| Partition.CreationStopsAtTheFirstFault | internal/scenario/networkpartition/driver.go:216-235 | creation succeeds iff no call faults and leaves nothing if the first call has no effect |
| Partition.Inject | internal/scenario/networkpartition/driver.go:69-128 | status, policies and outcome are those of the specified injection |
| Partition.CreatePolicies | internal/scenario/networkpartition/driver.go:214-235 | the loop creates in order, counts existing policies as created, and stops at the first other error |
| Partition.Cleanup | internal/scenario/networkpartition/driver.go:135-157 | status and policies are those of the specified deletion loop |
| Containers.SettlingIsSound | internal/scenario/networkchaos/driver.go:168-205 | only gone containers are newly marked; without a read error exactly the gone ones are |
| Containers.SettleInPlace | internal/scenario/networkchaos/driver.go:168-207 | the in-place loop leaves the array as the specified walk does, also when it stops at an unreadable pod |
| Containers.StartingOnlyAdds | internal/scenario/networkchaos/driver.go:104-148 | injection records pods in order with their container name and stamp, one each, all of them iff it succeeds |
| Containers.StartedAreOnRecordIff | internal/scenario/networkchaos/driver.go:129-147 | the records name every container a start leaves behind iff it does not stop at an update that took effect and was reported as failed |
| Containers.ContainersAreDistinct | internal/scenario/networkchaos/driver.go:104-105 | no two records of one injection share a container name |
| Containers.StartSucceedsIff | internal/scenario/networkchaos/driver.go:104-148 | injection into distinct pods succeeds iff every pod can be read, is there, has no container of that name, and takes the update |
| Containers.SecondStartFails | internal/scenario/resourceexhaustion/driver.go:105-131 | once one container was recorded, a second injection into the same pods fails, by the same run after a lost record and by any run with the same first 20 characters |
| Containers.InjectNetwork | internal/scenario/networkchaos/driver.go:72-154 | status, pods and outcome are those of the specified injection, including re-entry, partial failure and the panic of the script printer |
| Containers.InjectStress | internal/scenario/resourceexhaustion/driver.go:70-148 | the same for resource exhaustion, which injects into the pods selected earlier if there are any |
| Containers.FindContainerState | internal/ephemeral/ephemeral.go:57-65 | the state of the first status with that name, and none iff no status has it |
| PodKill.RandomSelectionIsFair | internal/scenario/tmpodkill/driver.go:147-166 | for every outcome of the shuffle the choice has exactly the asked size, no repetition and only target pods |
| PodKill.ShuffleIsAPermutation | internal/scenario/tmpodkill/driver.go:158-163 | any sequence of swaps permutes the list |
| PodKill.RandomSelect | internal/scenario/tmpodkill/driver.go:147-166 | the in-place shuffle of a copy yields the specified selection |
| PodKill.ExplicitSelect | internal/scenario/tmpodkill/driver.go:117-136 | returns the requested names iff all of them are target pods |
| PodKill.DeletesAPrefix | internal/scenario/tmpodkill/driver.go:171-198 | the injected list is a prefix of the selection, all of it iff no error, and only selected pods disappear |
| PodKill.SurvivorsAreCounted | internal/scenario/tmpodkill/driver.go:171-198 | at least the unselected pods survive, and exactly those when every deletion succeeds |
| PodKill.DeletePods | internal/scenario/tmpodkill/driver.go:171-198 | the loop deletes in order and stops at the first error |
| Observers.ReadyIffRecovered | internal/observer/kubernetes/observer.go:51-148 | the wired observer reports ready iff all target pods could be read, none is an injected one, there is at least one, all are ready, and with REST a job is RUNNING and the count is at the baseline |
| Observers.CompositeOfConcatenation | internal/observer/composite/observer.go:45-72 | observing A and then B is merging what A and B observe, where the earlier error wins |
| Observers.FirstErrorDecides | internal/observer/composite/observer.go:47-51 | the composite fails iff a child does, and then with the error of the first one, whatever comes after it |
| Observers.LastChildDecides | internal/observer/composite/observer.go:58-69 | each count and state is that of the last child that sets it, and unset when none does |
| Observers.ObservedSignals | cmd/controller/main.go:145-155 | what the wired observer reports, read off the world: the counts, the job state and whether replacements are seen |
| Observers.ObserverFailsIff | internal/observer/kubernetes/observer.go:110-116 | it fails iff a live pod cannot be read before one is found unready, or REST is on and a request fails, with that error |
| Observers.CompositeFlags | internal/observer/composite/observer.go:45-72 | the merge errs iff a child errs; ready is a conjunction, replaced a disjunction |
| Observers.MergeIsAssociative | internal/observer/composite/observer.go:52-70 | merging is associative |
| Observers.UnitIsNeutral | internal/observer/composite/observer.go:46-46 | the result without children is neutral |
| Observers.ObserveComposite | internal/observer/composite/observer.go:45-72 | the field-by-field fold is the merge of all children and returns the error of the first child that fails |
| Observers.ObserveKubernetes | internal/observer/kubernetes/observer.go:51-124 | the loops over name sets decide exactly whether no injected name is live and all live pods are ready |
| Observers.ObserveRest | internal/observer/flinkrest/observer.go:64-109 | a RUNNING job wins over the first one, and ready compares the count with the baseline |
| NetworkPolicies.SplitPoliciesAreEquivalent | internal/scenario/networkpartition/driver.go:201-233 | next to any other policies, the separate Ingress and Egress policies allow exactly what one Both policy allows |
| NetworkPolicies.PartitionBlocksExactly | internal/netchaos/policy/builder.go:57-127 | with no other policy on the pods, the traffic lost is exactly: everything in the chosen directions for labels, and for a CIDR all egress but IPv4 outside it on the given port |
| NetworkPolicies.PortReadingHoldsIffNoPort | internal/netchaos/policy/builder.go:78-103 | a CIDR partition blocks IPv4 egress to just that CIDR and port iff there is no port |
| NetworkPolicies.PolicyNamesAreDistinct | internal/netchaos/policy/builder.go:130-132 | no two runs share a policy name and a run's two names differ |
| TrafficControl.DurationRoundTrip | internal/netchaos/tc/builder.go:106-115 | reading a printed duration gives it rounded down to a microsecond, and exactly it iff it is a whole number of them |
| TrafficControl.ScriptPanicsIffTextUnsafe | api/v1alpha1/chaosrun_validation.go:31-31 | for a validated spec the printer panics iff the endpoint's CIDR text is unsafe or the rate has a Kelvin sign; with an external target or no endpoint iff the rate has one |
| TrafficControl.KelvinRatePanics | internal/netchaos/tc/builder.go:135-142 | the rate 10 followed by a Kelvin sign and bit passes validation with a safe external endpoint and panics |
| TrafficControl.ScriptRunsTheRule | internal/netchaos/tc/builder.go:135-172 | splitting the script into lines and its add line at spaces gives back the argument vector |
| TrafficControl.CommandImpairsAsSpecified | internal/netchaos/tc/builder.go:56-82 | reading the netem command word by word gives the specified delay and jitter to the microsecond and the loss |
| TrafficControl.CommandNamesRateAndPeer | internal/netchaos/tc/builder.go:57-96 | a bandwidth makes a token bucket of that rate, and the filter matches the endpoint's CIDR |
| TrafficControl.ScriptSleepsAndCleansUp | internal/netchaos/tc/builder.go:118-171 | the script traps a stop, sleeps for the duration in whole seconds but at least one, and removes the qdisc |
| TrafficControl.ScriptFiltersThePeer | internal/netchaos/tc/builder.go:157-164 | with a CIDR the next line splits back into the filter's argument vector iff the CIDR has no space, which every validated external target ensures |
| Ephemeral.ContainerName | internal/ephemeral/ephemeral.go:30-53 | never longer than 63 characters |
| Ephemeral.NameKeepsItsSuffix | internal/ephemeral/ephemeral.go:35-52 | with the prefixes in use the index is never cut off |
| Ephemeral.ContainerNamesCollideIff | internal/ephemeral/ephemeral.go:30-53 | two runs get the same container name iff their names agree in the first 20 characters and the positions are equal |
| Ephemeral.ContainerNameIsInjective | internal/scenario/networkchaos/driver.go:104-105 | different pod indexes get different names |
| ChaosApi.DefaultsAreStable | api/v1alpha1/chaosrun_validation.go:242-346 | defaulting twice is defaulting once |
| Specs.DefaultsFillIn | api/v1alpha1/chaosrun_validation.go:297-346 | what every observation and safety value that is not given becomes, and that given ones stay |
| Specs.ScenarioDefaultsFillIn | api/v1alpha1/chaosrun_validation.go:248-295 | the same for the scenario |
| Specs.ValidIffFaultless | api/v1alpha1/chaosrun_validation.go:37-240 | validation accepts exactly what has none of the listed faults |
| Specs.RatesAreNumbersWithUnits | api/v1alpha1/chaosrun_validation.go:31-31 | a rate is the decimal text of a positive number and one of four units, in any case |
| Specs.FaultySpecsNeverInject | api/v1alpha1/chaosrun_validation.go:37-53 | in every execution a reconcile that disturbs the cluster is for a specification without a fault |
| Execution.ValidSpecsAreUsable | api/v1alpha1/chaosrun_validation.go:91-205 | a defaulted spec that passes validation has the scenario section and duration its driver needs |
| Sse.Stream.Poll | internal/apiserver/handlers_sse.go:103-137 | a failed list changes nothing; otherwise the snapshot becomes the listed name-to-phase map and exactly the changes are written, a prefix of them if a write fails |
| Sse.Stream.Emit | internal/apiserver/handlers_sse.go:110-129 | the loop writes the changes in list order and notes them |
| Sse.Stream.DropStale | internal/apiserver/handlers_sse.go:131-136 | exactly the names no longer listed are forgotten |
| Sse.OneEventPerChange | internal/apiserver/handlers_sse.go:115-128 | a run is announced iff it is new or its phase changed, once |
| Sse.ClientsSeeTheLatestList | internal/apiserver/handlers_sse.go:84-137 | over any sequence of polls, failed ones included, a client folding everything written agrees with the latest list on every live run |
| Sse.StreamsTellTheSnapshot | internal/apiserver/handlers_sse.go:84-137 | the events a stream has sent tell a client its snapshot |
| Sse.ToldInTwoParts | internal/apiserver/handlers_sse.go:115-128 | folding the events of two polls is folding the one and then the other |
| Sse.UnchangedListIsSilent | internal/apiserver/handlers_sse.go:115-116 | polling an unchanged list writes nothing |
| Sse.LimitHolds | internal/apiserver/handlers_sse.go:57-63 | in every interleaving the counter is admitted plus refused-but-not-undone, at most 50 are admitted, and it returns to 0 |
| Sse.RefusedIffFull | internal/apiserver/handlers_sse.go:58-62 | a newcomer is refused iff admitted and not yet undone handlers together fill the limit |
| Sse.RefusedWithAFreeSlot | internal/apiserver/handlers_sse.go:58-62 | an interleaving after which fewer than 50 are admitted and a newcomer is refused |

## Left out

* Events, metrics, logging, message and reason texts, the dry-run preview, and requeue delays. Progress is stated per reconcile at a given time, not per wall clock.
* Informer staleness, and the refresh of the in-memory object after a patch: reads are current, the defaulted spec is captured once per reconcile, and the clock is read once per reconcile but for the checkpoint probe, whose duration is an input.
* A patch either takes effect or not; a patch that errs but took effect is the same as one that succeeded followed by a crash, except that the code after it does not run.
* Two controller replicas, spec edits other than the abort flag, and policies left behind by an earlier run of the same name (a new run starts without any).
* More than one namespace: names, peers and policies are those of one namespace, as the operator's own lookups are.
* Pods and policies changing in the middle of one reconcile; they change freely between reconciles.
* Conditions are a map from type to status, without list order, reason, message and transition time.
* Resolvers, the Flink REST client with its JSON decoding and checkpoint rates, and the client cache of the REST observer: their answers are inputs. A resolved target has distinct pod names.
* A composite observer takes the answers of its children as values; that children after a failing one do not matter is proved, that they are not called is not modelled.
* Stress-ng arguments, image names, security contexts and pod specifications apart from ephemeral container names; the command of a container is not stored with it, so the script and the driver meet only in the printer's panic.
* CIDR syntax is modelled by its characters, and which addresses a CIDR covers by an arbitrary reading for which 0.0.0.0/0 covers everything.
* Defaults and validation work on values, not through pointers into the object.
* The status is a value in a field of the in-memory run, replaced as a whole where the source sets single fields of it; aliasing between the copy kept for the patch and the run does not arise.
* The two ephemeral-container drivers share their loops in the model, as the two source loops are the same but for names; the per-record pointer is an array element.
* Misconfigured controllers: no drivers, no resolvers, no checker or no driver for a scenario type that passed validation.
* A terminal run is never looked at again, so unrecognised phase texts, which do nothing either, have no value of their own.
* Floating-point rounding when a duration is turned into seconds: the model divides whole numbers.
* The 32-bit width of the connection counter, heartbeats, and the other HTTP handlers, the UI and the command line.
