/** What defaulting fills in, what validation refuses, and that nothing is injected for a refused specification. */
module Specs {
  import opened Wrappers
  import opened ChaosApi
  import opened Cluster
  import opened Drivers
  import opened Lifecycle
  import opened Execution
  import opened Invariants
  import opened Guarantees
  import opened Text

  /******* Defaults *******/

  /** Every value that is not given, and what it becomes; all times in nanoseconds. */
  lemma DefaultsFillIn(s: RunSpec)
    ensures var d := Defaulted(s);
            && d.target == s.target && d.abort == s.abort && d.scenario.kind == s.scenario.kind
            && d.observe.timeout == (if s.observe.timeout == 0 then 600_000_000_000 else s.observe.timeout)
            && d.observe.pollInterval == (if s.observe.pollInterval == 0 then 5_000_000_000 else s.observe.pollInterval)
            && (d.observe.enabled <==> s.observe.enabled || (s.observe.timeout == 0 && s.observe.pollInterval == 0))
            && d.observe.rest.enabled == s.observe.rest.enabled && d.observe.rest.endpoint == s.observe.rest.endpoint
            && d.safety.dryRun == s.safety.dryRun && d.safety.allowSharedCluster == s.safety.allowSharedCluster
            && d.safety.allowCheckpointStorage == s.safety.allowCheckpointStorage
            && d.safety.maxConcurrent == (if s.safety.maxConcurrent == 0 then 1 else s.safety.maxConcurrent)
            && d.safety.minRemaining == Some(s.safety.minRemaining.GetOr(1))
            && d.safety.maxNetworkDuration == Some(s.safety.maxNetworkDuration.GetOr(300_000_000_000))
            && d.safety.maxExhaustionDuration == Some(s.safety.maxExhaustionDuration.GetOr(300_000_000_000))
    ensures var a, b := s.observe.rest, Defaulted(s).observe.rest;
            && b.requireStableCheckpoint == a.requireStableCheckpoint
            && (a.requireStableCheckpoint ==>
                  && b.waitTimeout == Some(a.waitTimeout.GetOr(300_000_000_000))
                  && b.stableWindow == (if a.stableWindow == 0 then 60 else a.stableWindow))
  {
  }

  lemma ScenarioDefaultsFillIn(s: ScenarioSpec)
    ensures var a, b := s.selection, DefaultScenario(s).selection;
            && b.podNames == a.podNames
            && (s.kind in {TaskManagerPodKill, UnsetScenario} ==>
                  && b.mode == (if a.mode == UnsetMode then Random else a.mode)
                  && b.count == (if b.mode == Random && a.count == 0 then 1 else a.count))
    ensures var d := DefaultScenario(s);
            && (d.network.Some? <==> s.network.Some?)
            && (s.network.Some? ==>
                  d.network.value == s.network.value.(
                    duration := Some(s.network.value.duration.GetOr(60_000_000_000)),
                    direction := if s.network.value.direction == UnsetDirection then Both else s.network.value.direction))
    ensures var d := DefaultScenario(s);
            && (d.exhaustion.Some? <==> s.exhaustion.Some?)
            && (s.kind == ResourceExhaustion && s.exhaustion.Some? ==>
                  && d.exhaustion.value.mode == s.exhaustion.value.mode
                  && d.exhaustion.value.duration == Some(s.exhaustion.value.duration.GetOr(60_000_000_000))
                  && d.exhaustion.value.workers == (if s.exhaustion.value.workers == 0 then 1 else s.exhaustion.value.workers)
                  && (s.exhaustion.value.mode == Memory && s.exhaustion.value.memoryPercent == 0 ==>
                        d.exhaustion.value.memoryPercent == 80))
  {
  }

  /******* Validation *******/

  /** Go's [1-9][0-9]* followed by a unit: the decimal text of a positive number, and kbit, mbit, gbit or tbit. */
  lemma RatesAreNumbersWithUnits(s: string)
    ensures IsRate(s) <==>
              && |s| >= 5
              && (exists n: nat :: n > 0 && s[..|s| - 4] == Decimal(n))
              && [Fold(s[|s| - 4]), Fold(s[|s| - 3]), Fold(s[|s| - 2]), Fold(s[|s| - 1])] in {"kbit", "mbit", "gbit", "tbit"}
  {
    if |s| >= 5 {
      var digits := s[..|s| - 4];
      if IsRate(s) {
        CanonicalText(digits);
        assert digits == Decimal(ParseDecimal(digits));
      }
      forall n: nat | n > 0 && digits == Decimal(n) ensures '1' <= s[0] <= '9' {
        FirstDigitOfPositive(n);
      }
      var c := Fold(s[|s| - 4]);
      assert [c, 'b', 'i', 't'][0] == c && "kbit"[0] == 'k' && "mbit"[0] == 'm' && "gbit"[0] == 'g' && "tbit"[0] == 't';
      assert c in "kmgt" <==> c == 'k' || c == 'm' || c == 'g' || c == 't';
    }
  }

  /** The faults of a target. */
  predicate BadTarget(t: TargetSpec) {
    || (t.kind == FlinkDeployment && t.name == "")
    || (t.kind == VervericaDeployment && t.deploymentId == "" && t.deploymentName == "")
    || (t.kind == PodSelector && (t.selectorTerms.None? || t.selectorTerms.value == 0))
    || t.kind == UnsupportedTarget
  }

  predicate BadSelection(s: Selection) {
    || ((s.mode == Random || s.mode == UnsetMode) && s.count < 1)
    || (s.mode == Explicit && s.podNames == [])
    || s.mode == UnsupportedMode
  }

  predicate BadNetwork(kind: ScenarioType, n: NetworkSpec) {
    || n.target == UnsetTarget
    || (kind == NetworkChaos && n.latency.None? && n.loss.None? && n.bandwidth == "")
    || (kind == NetworkChaos && n.jitter.Some? && n.latency.None?)
    || (kind == NetworkChaos && n.bandwidth != "" && n.target != TMtoExternal)
    || (n.bandwidth != "" && !IsRate(n.bandwidth))
    || (n.target in {TMtoCheckpoint, TMtoExternal} && BadEndpoint(kind, n.endpoint))
  }

  predicate BadEndpoint(kind: ScenarioType, x: Option<ExternalEndpoint>) {
    || x.None?
    || (kind == NetworkPartition && x.value.cidr == "")
    || (x.value.cidr != "" && !LooksLikeCidr(x.value.cidr))
  }

  predicate BadExhaustion(x: ExhaustionSpec) {
    || x.mode == UnsupportedExhaustion
    || (x.mode == Memory && x.memoryPercent != 0 && (x.memoryPercent < 1 || x.memoryPercent > 100))
  }

  predicate BadScenario(s: ScenarioSpec) {
    || (s.kind in {TaskManagerPodKill, UnsetScenario} && BadSelection(s.selection))
    || (s.kind in {NetworkPartition, NetworkChaos} && (s.network.None? || BadNetwork(s.kind, s.network.value)))
    || (s.kind == ResourceExhaustion && (s.exhaustion.None? || BadExhaustion(s.exhaustion.value)))
    || s.kind == UnsupportedScenario
  }

  predicate BadObserve(o: ObserveSpec) {
    || (o.rest.requireStableCheckpoint && (!o.rest.enabled || o.rest.endpoint == ""))
    || (o.timeout > 0 && o.pollInterval > 0 && o.timeout < o.pollInterval)
  }

  /** Validation accepts exactly what has none of the faults. */
  lemma ValidIffFaultless(s: RunSpec)
    ensures Valid(s) <==> !BadTarget(s.target) && !BadScenario(s.scenario) && !BadObserve(s.observe)
  {
  }

  /******* Only validated runs inject *******/

  /** A run that has left Pending, other than by failing or an abort, was validated. */
  predicate Validated(run: Run) {
    run.status.phase in {PhaseInjecting, PhaseObserving, PhaseCleaningUp, PhaseCompleted} ==> Valid(Defaulted(run.spec))
  }

  lemma StepKeepsValidated(spec: RunSpec, run: Run, w: World, n: string, e: Env)
    requires Enumerates(e.policyOrder, Labelled(w.resources.policies, n))
    requires !Valid(spec) && run.status.phase in {PhaseUnset, PhasePending, PhaseFailed, PhaseAborted}
    ensures StepWith(spec, run, w, n, e).run.status.phase in {PhaseUnset, PhasePending, PhaseFailed, PhaseAborted}
  {
  }

  predicate AllValidated(w: World) {
    forall n <- w.runs :: Validated(w.runs[n])
  }

  lemma NextKeepsValidated(w: World, ev: Event)
    requires AllValidated(w)
    ensures AllValidated(Next(w, ev))
  {
    if Possible(w, ev) {
      if ev.Reconcile? {
        var run := w.runs[ev.name];
        StepKeepsIdentity(Defaulted(run.spec), run, w, ev.name, ev.e);
        if !Valid(Defaulted(run.spec)) {
          StepKeepsValidated(Defaulted(run.spec), run, w, ev.name, ev.e);
        }
      } else if ev.SetAbort? {
        AbortFlagIsSeparate(w.runs[ev.name].spec, ev.on);
      }
    }
  }

  lemma {:induction false} ExecKeepsValidated(w: World, evs: seq<Event>)
    requires Initial(w)
    ensures AllValidated(Exec(w, evs))
  {
    if evs != [] {
      ExecKeepsValidated(w, evs[..|evs| - 1]);
      NextKeepsValidated(Exec(w, evs[..|evs| - 1]), evs[|evs| - 1]);
    }
  }

  /** In every execution, a reconcile that disturbs the cluster is for a specification without a fault. */
  lemma {:induction false} FaultySpecsNeverInject(w: World, evs: seq<Event>, n: string, e: Env)
    requires Initial(w) && Possible(Exec(w, evs), Reconcile(n, e))
    requires Disturbs(Exec(w, evs).resources, Reconciled(Exec(w, evs), n, e).resources)
    ensures var spec := Defaulted(Exec(w, evs).runs[n].spec);
            !BadTarget(spec.target) && !BadScenario(spec.scenario) && !BadObserve(spec.observe)
  {
    ExecKeepsValidated(w, evs);
    InjectsOnlyWhenCleared(Exec(w, evs), n, e);
    assert Validated(Exec(w, evs).runs[n]);
    ValidIffFaultless(Defaulted(Exec(w, evs).runs[n].spec));
  }
}
