/** What a run that injects has been checked for, written out, and that nothing else is refused. */
module Guards {
  import opened Wrappers
  import opened ChaosApi
  import opened Cluster
  import opened Drivers
  import opened Lifecycle
  import opened Execution
  import opened Invariants
  import opened Guarantees
  import Safety

  /** No system namespace, and no shared cluster without the opt-in. */
  predicate MayTouch(namespace: string, s: SafetySpec, target: ResolvedTarget) {
    && namespace != "kube-system" && namespace != "kube-public" && namespace != "kube-node-lease"
    && (target.shared ==> s.allowSharedCluster)
  }

  /** The TaskManagers a pod kill is expected to leave. */
  function Left(selection: Selection, target: ResolvedTarget): int {
    |target.tmPods| - if selection.count == 0 then 1 else selection.count
  }

  predicate LeavesEnough(spec: RunSpec, target: ResolvedTarget) {
    spec.scenario.kind == TaskManagerPodKill ==>
      Left(spec.scenario.selection, target) >= spec.safety.minRemaining.GetOr(1)
  }

  /** The other runs that have not ended and are recorded on the same target. */
  function Competitors(runs: map<string, Run>, name: string, target: ResolvedTarget): set<string> {
    set m | && m in runs && m != name
            && runs[m].status.phase != PhaseCompleted && runs[m].status.phase != PhaseAborted
            && runs[m].status.phase != PhaseFailed
            && runs[m].status.targetSummary.Some?
            && runs[m].status.targetSummary.value.name == target.logicalName
  }

  /** A given duration is no longer than a given cap. */
  predicate NotTooLong(duration: Option<int>, cap: Option<int>) {
    duration.Some? && cap.Some? ==> duration.value <= cap.value
  }

  predicate NetworkIsAllowed(kind: ScenarioType, n: NetworkSpec, s: SafetySpec) {
    && NotTooLong(n.duration, s.maxNetworkDuration)
    && (n.target == TMtoCheckpoint ==> s.allowCheckpointStorage)
    && (kind == NetworkPartition && n.target == TMtoTM && n.direction == Both ==> s.allowSharedCluster)
  }

  predicate ChaosIsAllowed(spec: RunSpec) {
    var kind, s := spec.scenario.kind, spec.safety;
    && ((kind == NetworkPartition || kind == NetworkChaos) && spec.scenario.network.Some? ==>
          NetworkIsAllowed(kind, spec.scenario.network.value, s))
    && (kind == ResourceExhaustion && spec.scenario.exhaustion.Some? ==>
          NotTooLong(spec.scenario.exhaustion.value.duration, s.maxExhaustionDuration))
  }

  /** Every guard of the documentation, but for the count of TaskManagers. */
  predicate MeetsOtherGuards(w: World, n: string, spec: RunSpec, target: ResolvedTarget, e: Env) {
    && MayTouch(w.namespace, spec.safety, target)
    && e.listRunsOk && |Competitors(w.runs, n, target)| < spec.safety.maxConcurrent
    && ChaosIsAllowed(spec)
  }

  lemma CompetitorsAreActivePeers(runs: map<string, Run>, name: string, target: ResolvedTarget)
    ensures Competitors(runs, name, target) == Safety.ActivePeers(runs, name, target.logicalName)
  {
  }

  lemma NetworkChecksIff(kind: ScenarioType, net: Option<NetworkSpec>, s: SafetySpec)
    requires kind == NetworkPartition || kind == NetworkChaos
    ensures Safety.CheckNetwork(kind, net, s).None? <==> (net.Some? ==> NetworkIsAllowed(kind, net.value, s))
  {
  }

  /**
   A run passes exactly when it meets every guard. The remaining TaskManagers are narrowed to 32 bits, which can
   only refuse more, and does so only from two billion pods on.
   */
  lemma PassesIffGuardsAreMet(w: World, n: string, spec: RunSpec, e: Env)
    requires e.target.Some?
    ensures var target := e.target.value;
            && (PassesChecks(w.namespace, n, spec, w.runs, e) ==>
                  MeetsOtherGuards(w, n, spec, target, e) && LeavesEnough(spec, target))
            && (MeetsOtherGuards(w, n, spec, target, e) && LeavesEnough(spec, target)
                && Left(spec.scenario.selection, target) < 0x8000_0000 ==>
                  PassesChecks(w.namespace, n, spec, w.runs, e))
  {
    var target := e.target.value;
    CompetitorsAreActivePeers(w.runs, n, target);
    NetworkChecksIff(NetworkPartition, spec.scenario.network, spec.safety);
    NetworkChecksIff(NetworkChaos, spec.scenario.network, spec.safety);
    Safety.WrapNeverGains(|target.tmPods|, if spec.scenario.selection.count == 0 then 1 else spec.scenario.selection.count);
  }

  /** The rejection names a guard that is not met, and the first three guards are tried in this order. */
  lemma RejectionNamesAGuard(w: World, n: string, spec: RunSpec, target: ResolvedTarget, listOk: bool)
    ensures var rejection, s, kind := Safety.Check(w.namespace, n, spec, target, w.runs, listOk), spec.safety, spec.scenario.kind;
            var net, own := kind == NetworkPartition || kind == NetworkChaos, spec.scenario.exhaustion;
            rejection.Some? ==>
              match rejection.value
              case DeniedNamespace => w.namespace in {"kube-system", "kube-public", "kube-node-lease"}
              case SharedCluster => target.shared && !s.allowSharedCluster && MayTouch(w.namespace, s, target.(shared := false))
              case TooFewTaskManagers =>
                kind == TaskManagerPodKill && MayTouch(w.namespace, s, target)
                && (Left(spec.scenario.selection, target) < 0x8000_0000 ==> !LeavesEnough(spec, target))
              case ListFailed => !listOk && MayTouch(w.namespace, s, target)
              case TooManyRuns => listOk && |Competitors(w.runs, n, target)| >= s.maxConcurrent
              case NetworkTooLong =>
                net && spec.scenario.network.Some? && !NotTooLong(spec.scenario.network.value.duration, s.maxNetworkDuration)
              case CheckpointStorage =>
                net && spec.scenario.network.Some? && spec.scenario.network.value.target == TMtoCheckpoint
                && !s.allowCheckpointStorage
              case BlastRadius =>
                kind == NetworkPartition && spec.scenario.network.Some? && spec.scenario.network.value.target == TMtoTM
                && spec.scenario.network.value.direction == Both && !s.allowSharedCluster
              case ExhaustionTooLong =>
                kind == ResourceExhaustion && own.Some? && !NotTooLong(own.value.duration, s.maxExhaustionDuration)
  {
    CompetitorsAreActivePeers(w.runs, n, target);
  }

  /** Whatever a reconcile disturbs was within every guard at that moment. */
  lemma DisturbingMeetsEveryGuard(w: World, n: string, e: Env)
    requires Possible(w, Reconcile(n, e)) && Disturbs(w.resources, Reconciled(w, n, e).resources)
    ensures e.target.Some?
    ensures var spec := Defaulted(w.runs[n].spec);
            MeetsOtherGuards(w, n, spec, e.target.value, e) && LeavesEnough(spec, e.target.value)
  {
    InjectsOnlyWhenCleared(w, n, e);
    PassesIffGuardsAreMet(w, n, Defaulted(w.runs[n].spec), e);
  }

  /** A reconcile that gets to the checks: the target is resolved and nothing is on record. */
  predicate IsChecked(w: World, n: string, e: Env) {
    && Possible(w, Reconcile(n, e)) && e.target.Some?
    && w.runs[n].status.phase == PhaseInjecting && w.runs[n].status.injectedPods == []
    && Live(Defaulted(w.runs[n].spec), w.runs[n])
  }

  lemma DriverKeepsTheAnswer(spec: RunSpec, run: Run, step: InjectStep, count: nat, now: int, e: Env)
    requires e.patchOk(0) && !step.outcome.InjectPanicked? && HasConditionTrue(step.status, SafetyChecksPassed)
    ensures HasConditionTrue(AfterDriver(spec, run, step, count, now, e).status, SafetyChecksPassed)
  {
  }

  /**
   A checked reconcile stores the answer. It fails the run, with SafetyChecksPassed false and nothing touched,
   exactly when a guard is not met; else the condition is true, unless the driver panics and nothing is stored.
   */
  lemma AnswerIsStored(w: World, n: string, e: Env)
    requires IsChecked(w, n, e) && e.patchOk(0)
    ensures var run', spec, target := Reconciled(w, n, e).runs[n], Defaulted(w.runs[n].spec), e.target.value;
            if MeetsOtherGuards(w, n, spec, target, e) && LeavesEnough(spec, target) then
              Left(spec.scenario.selection, target) < 0x8000_0000 ==>
                run' == w.runs[n] || HasConditionTrue(run'.status, SafetyChecksPassed)
            else
              && run'.status.phase == PhaseFailed && run'.status.verdict == VerdictFailed
              && SafetyChecksPassed in run'.status.conditions && !run'.status.conditions[SafetyChecksPassed]
              && HasConditionTrue(run'.status, RunFailed)
              && Reconciled(w, n, e).resources == w.resources
  {
    var run, spec, target := w.runs[n], Defaulted(w.runs[n].spec), e.target.value;
    PassesIffGuardsAreMet(w, n, spec, e);
    if PassesChecks(w.namespace, n, spec, w.runs, e) && !spec.safety.dryRun {
      var st := Cleared(run.status, target);
      var step := Inject(n, spec, st, target, w.resources, w.clock, e);
      assert Step(w, n, e) == Local(AfterDriver(spec, run, step, |target.tmPods|, w.clock, e), step.resources);
      InjectKeepsTheRest(n, spec, st, target, w.resources, w.clock, e);
      if !step.outcome.InjectPanicked? {
        DriverKeepsTheAnswer(spec, run, step, |target.tmPods|, w.clock, e);
      }
    } else {
      var rejected := !PassesChecks(w.namespace, n, spec, w.runs, e);
      assert Step(w, n, e) == Local(run.(status := NotInjected(run.status, e.target, rejected, w.clock)), w.resources);
    }
  }
}
