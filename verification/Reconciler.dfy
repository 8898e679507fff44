/**
 The reconciler. Each method changes the in-memory run step by step and writes it back, and is
 proved to leave the API server exactly as the function of the same purpose in Lifecycle says.
 */
module Reconciliation {
  import opened Wrappers
  import opened ChaosApi
  import opened Cluster
  import opened Drivers
  import opened Lifecycle
  import Partition
  import Containers
  import PodKill
  import Safety
  import Observers

  class Reconciler {
    const api: ApiServer

    constructor (api: ApiServer)
      ensures this.api == api
    {
      this.api := api;
    }

    /** `run` is a fresh copy of the stored run, with the defaults filled in. */
    ghost predicate InMemory(run: ChaosRun)
      reads api, run
    {
      && run.name in api.runs
      && run.spec == Defaulted(api.runs[run.name].spec)
      && run.status == api.runs[run.name].status
      && run.finalizer == api.runs[run.name].finalizer
      && run.deleting == api.runs[run.name].deleting
    }

    function Resources(): Resources
      reads api
    {
      Cluster.Resources(api.policies, api.pods)
    }

    /** `after` is `before` with the named run and the resources replaced. */
    ghost predicate Became(before: World, name: string, l: Local, after: World) {
      after == before.(runs := before.runs[name := l.run], resources := l.resources)
    }

    method Reconcile(name: string, e: Env)
      modifies api
      ensures api.State() == Reconciled(old(api.State()), name, e)
    {
      if name !in api.runs {
        return;
      }
      ghost var w := api.State();
      var run := new ChaosRun(name, api.runs[name]);
      run.spec := Defaulted(run.spec);
      if IsTerminal(run.status.phase) {
        assert Became(w, name, Step(w, name, e), api.State());
        return;
      }
      if run.deleting && run.finalizer {
        ReconcileDeleted(run, e);
        return;
      }
      if run.spec.abort && run.status.phase != PhaseCleaningUp {
        ReconcileAbort(run, e);
        return;
      }
      match run.status.phase
      case PhaseUnset => ReconcilePending(run, e);
      case PhasePending => ReconcilePending(run, e);
      case PhaseInjecting => ReconcileInjecting(run, e);
      case PhaseObserving => ReconcileObserving(run, e);
      case PhaseCleaningUp => ReconcileCleaningUp(run, e);
    }

    method ReconcileDeleted(run: ChaosRun, e: Env)
      requires InMemory(run) && run.finalizer
      modifies api, run
      ensures Became(old(api.State()), run.name,
                     Deleting(old(run.spec), old(api.runs[run.name]), old(Resources()), old(api.clock), e), api.State())
    {
      var ok := CleanupChaos(run, e);
      if !ok {
        return;
      }
      run.finalizer := false;
      api.PatchFinalizer(run, e.patchOk(0));
    }

    method ReconcileAbort(run: ChaosRun, e: Env)
      requires InMemory(run)
      modifies api, run
      ensures Became(old(api.State()), run.name,
                     Local(Aborting(old(run.spec), old(api.runs[run.name]), old(api.clock), e), old(Resources())),
                     api.State())
    {
      run.status := SetCondition(run.status, AbortRequested, true);
      if NeedsCleanup(run.spec.scenario.kind) && run.status.phase != PhaseUnset && run.status.phase != PhasePending {
        run.status := run.status.(phase := PhaseCleaningUp);
      } else {
        run.status := AbortRun(run.status, api.clock);
      }
      api.PatchStatus(run, e.patchOk(0));
    }

    method ReconcilePending(run: ChaosRun, e: Env)
      requires InMemory(run)
      modifies api, run
      ensures Became(old(api.State()), run.name,
                     Local(Pending(old(run.spec), old(api.runs[run.name]), old(api.clock), e), old(Resources())),
                     api.State())
    {
      if !Valid(run.spec) {
        run.status := SetCondition(FailRun(run.status, api.clock), RunFailed, true);
        api.PatchStatus(run, e.patchOk(0));
        return;
      }
      run.status := run.status.(startedAt := Some(Stamp(api.clock)));
      api.PatchStatus(run, e.patchOk(0));
      if !e.patchOk(0) {
        return;
      }
      LeavePending(run, e);
    }

    /** The start is stamped and stored: wait for a checkpoint if one is required, then move on. */
    method LeavePending(run: ChaosRun, e: Env)
      requires InMemory(run) && run.status.startedAt == Some(Stamp(api.clock))
      modifies api, run
      ensures Became(old(api.State()), run.name,
                     Local(AfterStart(old(run.spec), old(api.runs[run.name]), old(api.clock), e), old(Resources())),
                     api.State())
    {
      if run.spec.observe.rest.requireStableCheckpoint {
        var proceed := WaitForStableCheckpoint(run, e);
        if !proceed {
          return;
        }
      }
      run.status := run.status.(phase := PhaseInjecting);
      api.PatchStatus(run, e.patchOk(1));
    }

    /** Polls the checkpoint once; on a timeout it fails the run itself. */
    method WaitForStableCheckpoint(run: ChaosRun, e: Env) returns (proceed: bool)
      requires InMemory(run) && run.status.startedAt.Some?
      modifies api, run
      ensures proceed <==> e.probe == Stable
      ensures run.spec == old(run.spec) && run.finalizer == old(run.finalizer)
      ensures proceed ==> api.State() == old(api.State()) && run.status == old(run.status)
      ensures var before := old(api.runs[run.name]);
              Became(old(api.State()), run.name,
                     Local(if e.probe == NotStable
                              && CheckpointWaitExpired(run.spec, old(run.status.startedAt.value),
                                                       old(api.clock) + e.probeTime)
                           then Patched(before, SetCondition(FailRun(before.status, old(api.clock) + e.probeTime),
                                                             RunFailed, true), e.patchOk(1))
                           else before, old(Resources())), api.State())
    {
      if e.probe == ProbeFailed {
        return false;
      }
      if e.probe == Stable {
        return true;
      }
      var later := api.clock + e.probeTime;
      if CheckpointWaitExpired(run.spec, run.status.startedAt.value, later) {
        run.status := SetCondition(FailRun(run.status, later), RunFailed, true);
      }
      api.PatchStatus(run, e.patchOk(1));
      proceed := false;
    }

    method ReconcileInjecting(run: ChaosRun, e: Env)
      requires InMemory(run)
      modifies api, run
      ensures Became(old(api.State()), run.name,
                     Injecting(api.namespace, run.name, old(run.spec), old(api.runs[run.name]), old(api.runs),
                               old(Resources()), old(api.clock), e), api.State())
    {
      if run.status.injectedPods != [] {
        TransitionToObserving(run, e);
        return;
      }
      if e.target.None? {
        run.status := Rejected(run.status, TargetResolved, api.clock);
        api.PatchStatus(run, e.patchOk(0));
        return;
      }
      var target := e.target.value;
      run.status := SetCondition(run.status, TargetResolved, true);
      var rejection := Safety.CheckRun(api, run, target, e.listRunsOk);
      if rejection.Some? {
        run.status := Rejected(run.status, SafetyChecksPassed, api.clock);
        api.PatchStatus(run, e.patchOk(0));
        return;
      }
      run.status := SetCondition(run.status, SafetyChecksPassed, true);
      run.status := run.status.(targetSummary := Some(TargetSummary(target.platform, target.logicalName)));
      if run.spec.safety.dryRun {
        run.status := run.status.(selectedPods := target.tmPods);
        run.status := FinalizeRun(run.status, VerdictInconclusive, api.clock);
        api.PatchStatus(run, e.patchOk(0));
        return;
      }
      InjectAndRecord(run, target, e);
    }

    /** Every check has passed and this is no dry run. */
    method InjectAndRecord(run: ChaosRun, target: ResolvedTarget, e: Env)
      requires run.name in api.runs && run.finalizer == api.runs[run.name].finalizer
      modifies api, run
      ensures var step := Inject(run.name, old(run.spec), old(run.status), target, old(Resources()), old(api.clock), e);
              Became(old(api.State()), run.name,
                     Local(AfterDriver(old(run.spec), old(api.runs[run.name]), step, |target.tmPods|, old(api.clock), e),
                           step.resources), api.State())
    {
      var outcome := InjectChaos(run, target, e);
      match outcome
      case InjectPanicked =>
      case InjectFailed =>
        run.status := Rejected(run.status, InjectionStarted, api.clock);
        api.PatchStatus(run, e.patchOk(0));
      case Injected(selected, injected) =>
        RecordInjection(run, target, selected, injected, e);
    }

    /** Persists the injection, adds the finalizer where one is needed, and moves on to Observing. */
    method RecordInjection(
        run: ChaosRun, target: ResolvedTarget, selected: seq<string>, injected: seq<string>, e: Env)
      requires run.name in api.runs && run.finalizer == api.runs[run.name].finalizer
      modifies api, run
      ensures Became(old(api.State()), run.name,
                     Local(AfterInjection(old(run.spec), old(api.runs[run.name]),
                                          Recorded(old(run.status), selected, injected, |target.tmPods|),
                                          old(api.clock), e), old(Resources())), api.State())
    {
      run.status := SetCondition(run.status, InjectionStarted, true);
      run.status := SetCondition(run.status, InjectionCompleted, true);
      run.status := run.status.(selectedPods := selected, injectedPods := injected);
      if run.status.observation.None? {
        run.status := run.status.(observation := Some(Observation(0, 0, None, None)));
      }
      run.status := run.status.(observation := Some(run.status.observation.value.(countBefore := |target.tmPods|)));
      PersistInjection(run, e);
    }

    method PersistInjection(run: ChaosRun, e: Env)
      requires run.name in api.runs && run.finalizer == api.runs[run.name].finalizer
      modifies api, run
      ensures Became(old(api.State()), run.name,
                     Local(AfterInjection(old(run.spec), old(api.runs[run.name]), old(run.status), old(api.clock), e),
                           old(Resources())), api.State())
    {
      api.PatchStatus(run, e.patchOk(0));
      if !e.patchOk(0) {
        return;
      }
      if NeedsCleanup(run.spec.scenario.kind) && !run.finalizer {
        run.finalizer := true;
        api.PatchFinalizer(run, e.patchOk(1));
        if !e.patchOk(1) {
          return;
        }
      }
      TransitionToObserving(run, e);
    }

    method TransitionToObserving(run: ChaosRun, e: Env)
      requires run.name in api.runs && run.status == api.runs[run.name].status
      modifies api, run
      ensures Became(old(api.State()), run.name,
                     Local(ToObserving(old(api.runs[run.name]), old(api.clock), e.patchOk(2)), old(Resources())),
                     api.State())
    {
      run.status := run.status.(observingStartedAt := Some(Stamp(api.clock)));
      run.status := run.status.(phase := PhaseObserving);
      api.PatchStatus(run, e.patchOk(2));
    }

    method ReconcileObserving(run: ChaosRun, e: Env)
      requires InMemory(run)
      modifies api, run
      ensures Became(old(api.State()), run.name,
                     Local(Observing(old(run.spec), old(api.runs[run.name]), old(Resources()), old(api.clock), e),
                           old(Resources())), api.State())
    {
      var now, needsCleanup := api.clock, NeedsCleanup(run.spec.scenario.kind);
      if !run.spec.observe.enabled {
        if needsCleanup {
          run.status := run.status.(phase := PhaseCleaningUp);
        } else {
          run.status := FinalizeRun(run.status, VerdictPassed, now);
        }
        api.PatchStatus(run, e.patchOk(0));
        return;
      }
      var anchor := run.status.startedAt;
      if run.status.observingStartedAt.Some? {
        anchor := run.status.observingStartedAt;
      }
      if anchor.Some? && now - anchor.value > run.spec.observe.timeout {
        CloseWindow(run, e);
        return;
      }
      if HeldForDuration(run.spec, run.status) {
        if now - run.status.observingStartedAt.value >= run.spec.scenario.network.value.duration.value {
          var verdict := if run.status.replacementObserved then VerdictPassed else VerdictInconclusive;
          run.status := run.status.(verdict := verdict, phase := PhaseCleaningUp);
        }
        api.PatchStatus(run, e.patchOk(0));
        return;
      }
      var poll := Observers.Observe(run.spec.observe, run.status.injectedPods, run.status.observation,
                                    e.target, api.pods, e);
      if poll.Err? {
        return;
      }
      RecordPoll(run, poll.value, anchor, e);
    }

    /** The observation window is over: settle the verdict and end the run or clean up. */
    method CloseWindow(run: ChaosRun, e: Env)
      requires run.name in api.runs
      modifies api, run
      ensures Became(old(api.State()), run.name,
                     Local(Patched(old(api.runs[run.name]), TimedOut(old(run.spec), old(run.status), old(api.clock)),
                                   e.patchOk(0)), old(Resources())), api.State())
    {
      var kind := run.spec.scenario.kind;
      if !NeedsCleanup(kind) {
        var recovered := if RecoverySeen(run.status) then VerdictPassed else VerdictFailed;
        run.status := FinalizeRun(run.status, recovered, api.clock);
      } else {
        var verdict := VerdictFailed;
        if kind == ResourceExhaustion || RecoverySeen(run.status) {
          verdict := VerdictPassed;
        } else if run.status.replacementObserved {
          verdict := VerdictInconclusive;
        }
        run.status := run.status.(verdict := verdict, phase := PhaseCleaningUp);
      }
      api.PatchStatus(run, e.patchOk(0));
    }

    method RecordPoll(run: ChaosRun, s: Observers.Signals, anchor: Option<int>, e: Env)
      requires run.name in api.runs && anchor == ObserveAnchor(run.status)
      modifies api, run
      ensures Became(old(api.State()), run.name,
                     Local(Patched(old(api.runs[run.name]), Polled(old(run.spec), old(run.status), s, old(api.clock)),
                                   e.patchOk(0)), old(Resources())), api.State())
    {
      var now := api.clock;
      var o := run.status.observation.GetOr(Observation(0, 0, None, None));
      if o.countBefore == 0 {
        o := o.(countBefore := s.countBefore);
      }
      o := o.(countAfter := s.countAfter);
      run.status := run.status.(observation := Some(o), replacementObserved := s.replaced);
      if s.ready && o.recoveredAt.None? {
        o := o.(recoveredAt := Some(Stamp(now)));
        if anchor.Some? {
          o := o.(recoverySeconds := Some(WholeSeconds(now - anchor.value)));
        }
        run.status := SetCondition(run.status.(observation := Some(o)), RecoveryObserved, true);
        if NeedsCleanup(run.spec.scenario.kind) {
          run.status := run.status.(phase := PhaseCleaningUp);
        } else {
          run.status := FinalizeRun(run.status, VerdictPassed, now);
        }
      }
      api.PatchStatus(run, e.patchOk(0));
    }

    method ReconcileCleaningUp(run: ChaosRun, e: Env)
      requires InMemory(run)
      modifies api, run
      ensures Became(old(api.State()), run.name,
                     CleaningUp(old(run.spec), old(api.runs[run.name]), old(Resources()), old(api.clock), e),
                     api.State())
    {
      var now := api.clock;
      if run.status.startedAt.Some? {
        var deadline := run.status.startedAt.value + run.spec.observe.timeout + CLEANUP_GRACE;
        if now > deadline {
          run.status := SetCondition(run.status, NetworkChaosCleanedUp, false);
          run.status := FailRun(run.status, now);
          api.PatchStatus(run, e.patchOk(0));
          return;
        }
      }
      var ok := CleanupChaos(run, e);
      if !ok {
        api.PatchStatus(run, e.patchOk(0));
        return;
      }
      var complete := IsCleanupComplete(run);
      if !complete {
        api.PatchStatus(run, e.patchOk(0));
        return;
      }
      CloseRun(run, e);
    }

    /** Cleanup is done: write the final status and then drop the finalizer. */
    method CloseRun(run: ChaosRun, e: Env)
      requires run.name in api.runs && run.finalizer == api.runs[run.name].finalizer
      modifies api, run
      ensures var closed := Patched(old(api.runs[run.name]), Closed(old(run.status), old(api.clock)), e.patchOk(0));
              Became(old(api.State()), run.name,
                     Local(if e.patchOk(0) && e.patchOk(1) then closed.(finalizer := false) else closed,
                           old(Resources())), api.State())
    {
      SetOutcome(run);
      api.PatchStatus(run, e.patchOk(0));
      if e.patchOk(0) && run.finalizer {
        run.finalizer := false;
        api.PatchFinalizer(run, e.patchOk(1));
      }
    }

    /** Aborted if that was asked for, else completed with the verdict stored on the way here. */
    method SetOutcome(run: ChaosRun)
      modifies run`status
      ensures run.status == Closed(old(run.status), api.clock)
    {
      run.status := SetCondition(run.status, NetworkChaosCleanedUp, true);
      if HasConditionTrue(run.status, AbortRequested) {
        run.status := AbortRun(run.status, api.clock);
      } else {
        var verdict := run.status.verdict;
        if verdict == NoVerdict {
          verdict := VerdictPassed;
        }
        run.status := FinalizeRun(run.status, verdict, api.clock);
      }
    }

    method IsCleanupComplete(run: ChaosRun) returns (complete: bool)
      ensures complete == CleanupComplete(run.status)
    {
      if run.status.networkPolicies != [] {
        return false;
      }
      for i := 0 to |run.status.networkInjections|
        invariant AllCleanedUp(run.status.networkInjections[..i])
      {
        if !run.status.networkInjections[i].cleanedUp {
          return false;
        }
      }
      for i := 0 to |run.status.exhaustionInjections|
        invariant AllCleanedUp(run.status.exhaustionInjections[..i])
      {
        if !run.status.exhaustionInjections[i].cleanedUp {
          return false;
        }
      }
      complete := true;
    }

    method InjectChaos(run: ChaosRun, target: ResolvedTarget, e: Env) returns (outcome: Outcome)
      modifies api`policies, api`pods, run`status
      ensures InjectStep(run.status, Resources(), outcome) ==
              Inject(run.name, run.spec, old(run.status), target, old(Resources()), api.clock, e)
    {
      match run.spec.scenario.kind
      case TaskManagerPodKill =>
        var selected := PodKill.SelectPods(run.spec.scenario.selection, target.tmPods, e.swaps);
        if selected.None? {
          return InjectFailed;
        }
        var injected, ok := PodKill.DeletePods(api, selected.value, e.deleteFault);
        outcome := if ok then Injected(selected.value, injected) else InjectFailed;
      case NetworkPartition => outcome := Partition.Inject(api, run, target, e);
      case NetworkChaos => outcome := Containers.InjectNetwork(api, run, target, api.clock, e);
      case ResourceExhaustion => outcome := Containers.InjectStress(api, run, target, api.clock, e);
      case UnsetScenario => outcome := InjectFailed;
      case UnsupportedScenario => outcome := InjectFailed;
    }

    /** Calls Cleanup on the driver of the scenario if it has one. */
    method CleanupChaos(run: ChaosRun, e: Env) returns (ok: bool)
      modifies api`policies, run`status
      ensures CleanupStep(run.status, Resources(), ok) ==
              CleanUp(run.spec, old(run.status), old(Resources()), api.clock, e)
    {
      match run.spec.scenario.kind
      case NetworkPartition => ok := Partition.Cleanup(api, run, e);
      case NetworkChaos => ok := Containers.CleanupNetwork(api, run, api.clock, e);
      case ResourceExhaustion => ok := Containers.CleanupStress(api, run, api.clock, e);
      case _ => ok := true;
    }
  }
}
