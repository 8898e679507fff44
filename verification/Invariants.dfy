/** Every step of every run keeps the invariant of Execution.dfy. */
module Invariants {
  import opened Wrappers
  import opened ChaosApi
  import opened NetworkPolicies
  import opened Cluster
  import opened Drivers
  import opened Lifecycle
  import opened Execution
  import Observers
  import Partition
  import Containers

  /******* A reconcile keeps the invariant *******/

  /** The reconcile reaches the method of its phase. */
  predicate Live(spec: RunSpec, run: Run) {
    && !IsTerminal(run.status.phase)
    && !(run.deleting && run.finalizer)
    && !(spec.abort && run.status.phase != PhaseCleaningUp)
  }

  /** `b` is `a` apart from the three lists of resources, which never gain an entry. */
  predicate KeepsTheRest(a: Status, b: Status) {
    && b == a.(networkPolicies := b.networkPolicies, networkInjections := b.networkInjections,
               exhaustionInjections := b.exhaustionInjections)
    && (a.networkPolicies == [] ==> b.networkPolicies == [])
    && |b.networkInjections| == |a.networkInjections|
    && |b.exhaustionInjections| == |a.exhaustionInjections|
  }

  lemma CleanUpKeepsTheRest(name: string, spec: RunSpec, st: Status, r: Resources, now: int, e: Env)
    requires Enumerates(e.policyOrder, Labelled(r.policies, name))
    ensures var c := CleanUp(spec, st, r, now, e);
            && KeepsTheRest(st, c.status)
            && c.resources.pods == r.pods
            && c.resources.policies.Keys <= r.policies.Keys
            && (forall n <- c.resources.policies :: c.resources.policies[n] == r.policies[n])
            && (forall n <- r.policies :: r.policies[n].runName != Some(name) ==> n in c.resources.policies)
            && (c.ok && spec.scenario.kind == NetworkPartition ==>
                  Labelled(c.resources.policies, name) == {} && c.status.networkPolicies == [])
  {
    match spec.scenario.kind
    case NetworkPartition => Partition.CleanupRemovesExactlyTheRun(name, st, r, e);
    case NetworkChaos =>
      Containers.SettlingIsSound(st.networkInjections, r.pods, Containers.NetworkDuration(spec.scenario.network), now, e.getOk);
    case ResourceExhaustion =>
      Containers.SettlingIsSound(st.exhaustionInjections, r.pods, Containers.ExhaustionDuration(spec.scenario.exhaustion), now, e.getOk);
    case _ =>
  }

  lemma InjectKeepsTheRest(
      name: string, spec: RunSpec, st: Status, target: ResolvedTarget, r: Resources, now: int, e: Env)
    ensures var s := Inject(name, spec, st, target, r, now, e); var kind := spec.scenario.kind;
            && s.status == st.(networkPolicies := s.status.networkPolicies, selectedPods := s.status.selectedPods,
                               networkInjections := s.status.networkInjections,
                               exhaustionInjections := s.status.exhaustionInjections)
            && (kind != NetworkPartition ==> s.status.networkPolicies == st.networkPolicies
                                             && s.resources.policies == r.policies)
            && (kind != NetworkChaos ==> s.status.networkInjections == st.networkInjections)
            && (kind != ResourceExhaustion ==> s.status.exhaustionInjections == st.exhaustionInjections)
            && (kind == UnsetScenario ==> s.outcome.InjectFailed?)
            && r.policies.Keys <= s.resources.policies.Keys
            && (forall n <- r.policies :: s.resources.policies[n] == r.policies[n])
            && (forall n <- s.resources.policies :: n !in r.policies ==> s.resources.policies[n].runName == Some(name))
            && (s.outcome.InjectPanicked? ==> s.resources == r)
  {
    if spec.scenario.kind == NetworkPartition {
      Partition.InjectionAddsOnlyOwnPolicies(name, spec.scenario.network, st, target, r, e);
    }
  }

  lemma EndingIsSound(spec: RunSpec, st: Status, now: int)
    requires StatusInv(spec, st) && !IsTerminal(st.phase) && !HasConditionTrue(st, AbortRequested)
    ensures StatusInv(spec, FailRun(st, now))
  {
  }

  lemma ConditionIsSound(spec: RunSpec, st: Status, c: ConditionType, value: bool)
    requires StatusInv(spec, st) && c != AbortRequested && c != NetworkChaosCleanedUp
    ensures StatusInv(spec, SetCondition(st, c, value))
  {
  }

  lemma EarlyFailureIsSound(spec: RunSpec, st: Status, now: int)
    requires StatusInv(spec, st) && Early(st.phase)
    ensures StatusInv(spec, SetCondition(FailRun(st, now), RunFailed, true))
  {
    EndingIsSound(spec, st, now);
    ConditionIsSound(spec, FailRun(st, now), RunFailed, true);
  }

  lemma StartIsSound(spec: RunSpec, st: Status, now: int)
    requires StatusInv(spec, st) && Early(st.phase)
    ensures StatusInv(spec, st.(startedAt := Some(Stamp(now))))
    ensures Usable(spec) ==> StatusInv(spec, st.(startedAt := Some(Stamp(now)), phase := PhaseInjecting))
  {
  }

  lemma AfterStartKeepsStatusInv(spec: RunSpec, run: Run, now: int, e: Env)
    requires StatusInv(spec, run.status) && Early(run.status.phase)
    requires StatusInv(spec, run.status.(phase := PhaseInjecting))
    ensures StatusInv(spec, AfterStart(spec, run, now, e).status)
  {
    EarlyFailureIsSound(spec, run.status, now + e.probeTime);
  }

  lemma PendingKeepsStatusInv(spec: RunSpec, run: Run, now: int, e: Env)
    requires StatusInv(spec, run.status) && Early(run.status.phase)
    requires Valid(spec) ==> Usable(spec)
    ensures StatusInv(spec, Pending(spec, run, now, e).status)
  {
    if !Valid(spec) {
      EarlyFailureIsSound(spec, run.status, now);
    } else {
      StartIsSound(spec, run.status, now);
      AfterStartKeepsStatusInv(spec, run.(status := run.status.(startedAt := Some(Stamp(now)))), now, e);
    }
  }

  lemma AbortingKeepsStatusInv(spec: RunSpec, run: Run, now: int, e: Env)
    requires StatusInv(spec, run.status) && !IsTerminal(run.status.phase) && run.status.phase != PhaseCleaningUp
    ensures StatusInv(spec, Aborting(spec, run, now, e).status)
  {
  }

  lemma TimedOutIsSound(spec: RunSpec, st: Status, now: int)
    requires StatusInv(spec, st) && st.phase == PhaseObserving
    ensures StatusInv(spec, TimedOut(spec, st, now))
  {
  }

  lemma PolledIsSound(spec: RunSpec, st: Status, s: Observers.Signals, now: int)
    requires StatusInv(spec, st) && st.phase == PhaseObserving && spec.scenario.kind != NetworkPartition
    ensures StatusInv(spec, Polled(spec, st, s, now))
  {
  }

  lemma AfterObservingIsSound(spec: RunSpec, st: Status, poll: Observers.Poll, now: int)
    requires StatusInv(spec, st) && st.phase == PhaseObserving
    ensures StatusInv(spec, AfterObserving(spec, st, poll, now))
  {
    if spec.observe.enabled {
      TimedOutIsSound(spec, st, now);
      if spec.scenario.kind == NetworkPartition {
        assert HeldForDuration(spec, st);
      } else if poll.Ok? {
        PolledIsSound(spec, st, poll.value, now);
      }
    }
  }

  lemma AfterCleanupIsSound(spec: RunSpec, st: Status, c: CleanupStep, now: int)
    requires StatusInv(spec, st) && st.phase == PhaseCleaningUp && KeepsTheRest(st, c.status)
    ensures StatusInv(spec, AfterCleanup(c, now))
  {
    assert StatusInv(spec, c.status);
  }

  lemma ExpiryIsSound(spec: RunSpec, st: Status, now: int)
    requires StatusInv(spec, st) && st.phase == PhaseCleaningUp
    ensures StatusInv(spec, FailRun(SetCondition(st, NetworkChaosCleanedUp, false), now))
  {
  }

  lemma CleaningUpKeepsStatusInv(name: string, spec: RunSpec, run: Run, r: Resources, now: int, e: Env)
    requires StatusInv(spec, run.status) && run.status.phase == PhaseCleaningUp
    requires Enumerates(e.policyOrder, Labelled(r.policies, name))
    ensures StatusInv(spec, CleaningUp(spec, run, r, now, e).run.status)
  {
    var c := CleanUp(spec, run.status, r, now, e);
    CleanUpKeepsTheRest(name, spec, run.status, r, now, e);
    AfterCleanupIsSound(spec, run.status, c, now);
    ExpiryIsSound(spec, run.status, now);
    PatchKeeps(spec, run, AfterCleanup(c, now), e.patchOk(0));
    PatchKeeps(spec, run, FailRun(SetCondition(run.status, NetworkChaosCleanedUp, false), now), e.patchOk(0));
  }

  lemma PatchKeeps(spec: RunSpec, run: Run, st: Status, ok: bool)
    requires StatusInv(spec, run.status) && StatusInv(spec, st)
    ensures StatusInv(spec, Patched(run, st, ok).status)
  {
  }

  lemma RejectedIsSound(spec: RunSpec, st: Status, cause: ConditionType, now: int)
    requires StatusInv(spec, st) && st.phase == PhaseInjecting
    requires cause != AbortRequested && cause != NetworkChaosCleanedUp
    ensures StatusInv(spec, Rejected(st, cause, now))
  {
    EndingIsSound(spec, st, now);
    ConditionIsSound(spec, FailRun(st, now), cause, false);
    ConditionIsSound(spec, SetCondition(FailRun(st, now), cause, false), RunFailed, true);
  }

  lemma ClearedIsSound(spec: RunSpec, st: Status, target: ResolvedTarget)
    requires StatusInv(spec, st) && st.phase == PhaseInjecting
    ensures StatusInv(spec, Cleared(st, target))
  {
    ConditionIsSound(spec, st, TargetResolved, true);
    ConditionIsSound(spec, SetCondition(st, TargetResolved, true), SafetyChecksPassed, true);
  }

  lemma DryRunIsSound(spec: RunSpec, st: Status, pods: seq<string>, now: int)
    requires StatusInv(spec, st) && st.phase == PhaseInjecting && spec.safety.dryRun
    ensures StatusInv(spec, FinalizeRun(st.(selectedPods := pods), VerdictInconclusive, now))
  {
  }

  lemma InjectIsSound(
      name: string, spec: RunSpec, st: Status, target: ResolvedTarget, r: Resources, now: int, e: Env)
    requires StatusInv(spec, st) && st.phase == PhaseInjecting && !spec.safety.dryRun
    ensures StatusInv(spec, Inject(name, spec, st, target, r, now, e).status)
  {
    InjectKeepsTheRest(name, spec, st, target, r, now, e);
  }

  lemma AfterInjectionIsSound(
      spec: RunSpec, run: Run, st: Status, selected: seq<string>, injected: seq<string>, count: nat, now: int, e: Env)
    requires StatusInv(spec, run.status) && StatusInv(spec, st) && st.phase == PhaseInjecting
    requires !spec.safety.dryRun && spec.scenario.kind != UnsetScenario
    ensures StatusInv(spec, AfterInjection(spec, run, Recorded(st, selected, injected, count), now, e).status)
  {
    var done := Recorded(st, selected, injected, count);
    ConditionIsSound(spec, st, InjectionStarted, true);
    ConditionIsSound(spec, SetCondition(st, InjectionStarted, true), InjectionCompleted, true);
    assert StatusInv(spec, done);
    assert StatusInv(spec, done.(observingStartedAt := Some(Stamp(now)), phase := PhaseObserving));
  }

  lemma AfterDriverIsSound(spec: RunSpec, run: Run, step: InjectStep, count: nat, now: int, e: Env)
    requires StatusInv(spec, run.status) && StatusInv(spec, step.status) && step.status.phase == PhaseInjecting
    requires !spec.safety.dryRun && (spec.scenario.kind == UnsetScenario ==> step.outcome.InjectFailed?)
    ensures StatusInv(spec, AfterDriver(spec, run, step, count, now, e).status)
  {
    match step.outcome
    case InjectFailed => RejectedIsSound(spec, step.status, InjectionStarted, now);
    case Injected(selected, injected) => AfterInjectionIsSound(spec, run, step.status, selected, injected, count, now, e);
    case InjectPanicked =>
  }

  lemma NotInjectedIsSound(spec: RunSpec, st: Status, target: Option<ResolvedTarget>, rejected: bool, now: int)
    requires StatusInv(spec, st) && st.phase == PhaseInjecting
    requires target.Some? && !rejected ==> spec.safety.dryRun
    ensures StatusInv(spec, NotInjected(st, target, rejected, now))
  {
    match target
    case None => RejectedIsSound(spec, st, TargetResolved, now);
    case Some(t) =>
      if rejected {
        ConditionIsSound(spec, st, TargetResolved, true);
        RejectedIsSound(spec, SetCondition(st, TargetResolved, true), SafetyChecksPassed, now);
      } else {
        ClearedIsSound(spec, st, t);
        DryRunIsSound(spec, Cleared(st, t), t.tmPods, now);
      }
  }

  lemma InjectingKeepsStatusInv(
      namespace: string, name: string, spec: RunSpec, run: Run, peers: map<string, Run>, r: Resources, now: int, e: Env)
    requires StatusInv(spec, run.status) && run.status.phase == PhaseInjecting
    ensures StatusInv(spec, Injecting(namespace, name, spec, run, peers, r, now, e).run.status)
  {
    var st, passes := run.status, PassesChecks(namespace, name, spec, peers, e);
    if st.injectedPods != [] {
      ReentryIsSound(spec, run, now, e.patchOk(2));
    } else if !passes || spec.safety.dryRun {
      NotInjectedIsSound(spec, st, e.target, !passes, now);
      PatchKeeps(spec, run, NotInjected(st, e.target, !passes, now), e.patchOk(0));
    } else {
      var target := e.target.value;
      var step := Inject(name, spec, Cleared(st, target), target, r, now, e);
      ClearedIsSound(spec, st, target);
      InjectIsSound(name, spec, Cleared(st, target), target, r, now, e);
      InjectKeepsTheRest(name, spec, Cleared(st, target), target, r, now, e);
      AfterDriverIsSound(spec, run, step, |target.tmPods|, now, e);
    }
  }

  lemma ReentryIsSound(spec: RunSpec, run: Run, now: int, ok: bool)
    requires StatusInv(spec, run.status) && run.status.phase == PhaseInjecting && run.status.injectedPods != []
    ensures StatusInv(spec, ToObserving(run, now, ok).status)
  {
  }

  lemma LiveStepKeepsStatusInv(spec: RunSpec, run: Run, w: World, name: string, e: Env)
    requires StatusInv(spec, run.status) && (Valid(spec) ==> Usable(spec)) && Live(spec, run)
    requires Enumerates(e.policyOrder, Labelled(w.resources.policies, name))
    ensures StatusInv(spec, StepWith(spec, run, w, name, e).run.status)
  {
    var r, now := w.resources, w.clock;
    match run.status.phase
    case PhaseInjecting => InjectingKeepsStatusInv(w.namespace, name, spec, run, w.runs, r, now, e);
    case PhaseObserving =>
      var poll := PollOf(spec, run.status, r, e);
      AfterObservingIsSound(spec, run.status, poll, now);
      PatchKeeps(spec, run, AfterObserving(spec, run.status, poll, now), e.patchOk(0));
    case PhaseCleaningUp => CleaningUpKeepsStatusInv(name, spec, run, r, now, e);
    case _ => PendingKeepsStatusInv(spec, run, now, e);
  }

  lemma StepKeepsStatusInv(spec: RunSpec, run: Run, w: World, name: string, e: Env)
    requires StatusInv(spec, run.status) && (Valid(spec) ==> Usable(spec))
    requires Enumerates(e.policyOrder, Labelled(w.resources.policies, name))
    ensures StatusInv(spec, StepWith(spec, run, w, name, e).run.status)
  {
    if Live(spec, run) {
      LiveStepKeepsStatusInv(spec, run, w, name, e);
    } else if !IsTerminal(run.status.phase) && !(run.deleting && run.finalizer) {
      AbortingKeepsStatusInv(spec, run, w.clock, e);
    }
  }

  predicate SameIdentity(a: Run, b: Run) {
    b.spec == a.spec && b.deleting == a.deleting
  }

  lemma InjectingKeepsIdentity(
      namespace: string, name: string, spec: RunSpec, run: Run, peers: map<string, Run>, r: Resources, now: int, e: Env)
    ensures SameIdentity(run, Injecting(namespace, name, spec, run, peers, r, now, e).run)
  {
    if e.target.Some? {
      var step := Inject(name, spec, Cleared(run.status, e.target.value), e.target.value, r, now, e);
      AfterDriverKeepsIdentity(spec, run, step, |e.target.value.tmPods|, now, e);
    }
  }

  lemma AfterDriverKeepsIdentity(spec: RunSpec, run: Run, step: InjectStep, count: nat, now: int, e: Env)
    ensures SameIdentity(run, AfterDriver(spec, run, step, count, now, e))
  {
  }

  /** A reconcile never writes the spec or the deletion mark. */
  lemma StepKeepsIdentity(spec: RunSpec, run: Run, w: World, n: string, e: Env)
    ensures SameIdentity(run, StepWith(spec, run, w, n, e).run)
  {
    if Live(spec, run) && run.status.phase == PhaseInjecting {
      InjectingKeepsIdentity(w.namespace, n, spec, run, w.runs, w.resources, w.clock, e);
    }
  }

  /******* Policies *******/

  /** Policies with another label, or none, are exactly as before; anything new carries the label. */
  predicate OnlyOwnPoliciesChange(name: string, before: map<string, Policy>, after: map<string, Policy>) {
    && (forall n <- before :: before[n].runName != Some(name) ==> n in after && after[n] == before[n])
    && (forall n <- after :: if n in before then after[n] == before[n] else after[n].runName == Some(name))
  }

  lemma InjectingChangesOnlyOwnPolicies(
      namespace: string, name: string, spec: RunSpec, run: Run, peers: map<string, Run>, r: Resources, now: int, e: Env)
    ensures OnlyOwnPoliciesChange(
              name, r.policies, Injecting(namespace, name, spec, run, peers, r, now, e).resources.policies)
  {
    if e.target.Some? {
      InjectKeepsTheRest(name, spec, Cleared(run.status, e.target.value), e.target.value, r, now, e);
    }
  }

  lemma CleanUpChangesOnlyOwnPolicies(name: string, spec: RunSpec, st: Status, r: Resources, now: int, e: Env)
    requires Enumerates(e.policyOrder, Labelled(r.policies, name))
    ensures OnlyOwnPoliciesChange(name, r.policies, CleanUp(spec, st, r, now, e).resources.policies)
  {
    CleanUpKeepsTheRest(name, spec, st, r, now, e);
  }

  lemma StepChangesOnlyOwnPolicies(spec: RunSpec, run: Run, w: World, name: string, e: Env)
    requires Enumerates(e.policyOrder, Labelled(w.resources.policies, name))
    ensures var after := StepWith(spec, run, w, name, e).resources;
            OnlyOwnPoliciesChange(name, w.resources.policies, after.policies)
  {
    if Live(spec, run) && run.status.phase == PhaseInjecting {
      InjectingChangesOnlyOwnPolicies(w.namespace, name, spec, run, w.runs, w.resources, w.clock, e);
    } else {
      CleanUpChangesOnlyOwnPolicies(name, spec, run.status, w.resources, w.clock, e);
    }
  }

  /** A step that leaves policies behind leaves them to a run that may have them. */
  lemma StepKeepsPolicies(spec: RunSpec, run: Run, w: World, name: string, e: Env)
    requires StatusInv(spec, run.status) && Enumerates(e.policyOrder, Labelled(w.resources.policies, name))
    requires Labelled(w.resources.policies, name) != {} ==> MayHavePolicies(spec, run.status)
    ensures var l := StepWith(spec, run, w, name, e);
            Labelled(l.resources.policies, name) != {} ==> MayHavePolicies(spec, l.run.status)
  {
    var before, l := w.resources.policies, StepWith(spec, run, w, name, e);
    StepChangesOnlyOwnPolicies(spec, run, w, name, e);
    if n :| n in Labelled(l.resources.policies, name) {
      if run.status.phase == PhaseInjecting && Live(spec, run) {
        StepFromInjectingKeepsPolicies(spec, run, w, name, e, n);
      } else {
        NothingIsCreatedElsewhere(spec, run, w, name, e, n);
        assert n in Labelled(before, name);
        StepFromElsewhereKeepsPolicies(spec, run, w, name, e);
      }
    }
  }

  lemma NothingIsCreatedElsewhere(spec: RunSpec, run: Run, w: World, name: string, e: Env, n: string)
    requires run.status.phase != PhaseInjecting || !Live(spec, run)
    requires Enumerates(e.policyOrder, Labelled(w.resources.policies, name))
    ensures n in StepWith(spec, run, w, name, e).resources.policies ==> n in w.resources.policies
  {
    CleanUpKeepsTheRest(name, spec, run.status, w.resources, w.clock, e);
  }

  lemma PhasesAfterInjecting(
      namespace: string, name: string, spec: RunSpec, run: Run, peers: map<string, Run>, r: Resources, now: int, e: Env)
    requires run.status.phase == PhaseInjecting && !spec.safety.dryRun
    ensures Injecting(namespace, name, spec, run, peers, r, now, e).run.status.phase
            in {PhaseInjecting, PhaseObserving, PhaseFailed}
  {
    if run.status.injectedPods == [] && PassesChecks(namespace, name, spec, peers, e) {
      var target := e.target.value;
      InjectKeepsTheRest(name, spec, Cleared(run.status, target), target, r, now, e);
      PhasesAfterDriver(spec, run, Inject(name, spec, Cleared(run.status, target), target, r, now, e), |target.tmPods|, now, e);
    }
  }

  lemma PhasesAfterDriver(spec: RunSpec, run: Run, step: InjectStep, count: nat, now: int, e: Env)
    requires run.status.phase == PhaseInjecting && step.status.phase == PhaseInjecting
    ensures AfterDriver(spec, run, step, count, now, e).status.phase in {PhaseInjecting, PhaseObserving, PhaseFailed}
  {
  }

  lemma StepFromInjectingKeepsPolicies(spec: RunSpec, run: Run, w: World, name: string, e: Env, n: string)
    requires run.status.phase == PhaseInjecting && Live(spec, run)
    requires Labelled(w.resources.policies, name) != {} ==> MayHavePolicies(spec, run.status)
    requires n in Labelled(StepWith(spec, run, w, name, e).resources.policies, name)
    ensures MayHavePolicies(spec, StepWith(spec, run, w, name, e).run.status)
  {
    if n in w.resources.policies && w.resources.policies[n].runName == Some(name) {
      assert n in Labelled(w.resources.policies, name);
    } else {
      InjectingCreatesForPartitions(spec, run, w, name, e, n);
    }
    PhasesAfterInjecting(w.namespace, name, spec, run, w.runs, w.resources, w.clock, e);
  }

  lemma InjectingCreatesForPartitions(spec: RunSpec, run: Run, w: World, name: string, e: Env, n: string)
    requires n !in Labelled(w.resources.policies, name)
    requires n in Labelled(Injecting(w.namespace, name, spec, run, w.runs, w.resources, w.clock, e).resources.policies, name)
    ensures spec.scenario.kind == NetworkPartition && !spec.safety.dryRun
  {
    if e.target.Some? {
      InjectKeepsTheRest(name, spec, Cleared(run.status, e.target.value), e.target.value, w.resources, w.clock, e);
    }
  }

  lemma ObservingKeepsPolicyHolders(spec: RunSpec, st: Status, poll: Observers.Poll, now: int)
    requires MayHavePolicies(spec, st) && st.phase == PhaseObserving
    ensures MayHavePolicies(spec, AfterObserving(spec, st, poll, now))
  {
  }

  lemma CleaningUpKeepsPolicies(spec: RunSpec, run: Run, r: Resources, now: int, e: Env, name: string)
    requires Enumerates(e.policyOrder, Labelled(r.policies, name))
    requires MayHavePolicies(spec, run.status) && run.status.phase == PhaseCleaningUp
    ensures var l := CleaningUp(spec, run, r, now, e);
            Labelled(l.resources.policies, name) != {} ==> MayHavePolicies(spec, l.run.status)
  {
    CleanUpKeepsTheRest(name, spec, run.status, r, now, e);
  }

  lemma StepFromElsewhereKeepsPolicies(spec: RunSpec, run: Run, w: World, name: string, e: Env)
    requires Enumerates(e.policyOrder, Labelled(w.resources.policies, name))
    requires MayHavePolicies(spec, run.status)
    requires run.status.phase != PhaseInjecting || !Live(spec, run)
    ensures var l := StepWith(spec, run, w, name, e);
            Labelled(l.resources.policies, name) != {} ==> MayHavePolicies(spec, l.run.status)
  {
    if Live(spec, run) {
      if run.status.phase == PhaseObserving {
        ObservingKeepsPolicyHolders(spec, run.status, PollOf(spec, run.status, w.resources, e), w.clock);
      } else {
        CleaningUpKeepsPolicies(spec, run, w.resources, w.clock, e, name);
      }
    }
  }

  /******* Worlds *******/

  /** Aborting changes nothing else that defaults or drivers look at. */
  lemma AbortFlagIsSeparate(s: RunSpec, on: bool)
    ensures Defaulted(s.(abort := on)) == Defaulted(s).(abort := on)
  {
  }

  lemma FlagsKeepRunInv(run: Run, on: bool)
    requires RunInv(run)
    ensures RunInv(run.(spec := run.spec.(abort := on)))
  {
    AbortFlagIsSeparate(run.spec, on);
    AbortDoesNotMatter(Defaulted(run.spec), run.status, on);
  }

  lemma AbortDoesNotMatter(spec: RunSpec, st: Status, on: bool)
    requires StatusInv(spec, st)
    ensures StatusInv(spec.(abort := on), st)
    ensures MayHavePolicies(spec.(abort := on), st) <==> MayHavePolicies(spec, st)
  {
  }

  lemma OthersKeepTheirPolicies(w: World, w': World, n: string, m: string)
    requires m in w.runs && m in w'.runs && w'.runs[m] == w.runs[m] && m != n && PoliciesInv(w, m)
    requires OnlyOwnPoliciesChange(n, w.resources.policies, w'.resources.policies)
    ensures PoliciesInv(w', m)
  {
    assert Labelled(w'.resources.policies, m) == Labelled(w.resources.policies, m);
  }

  lemma ReconciledRunIsSound(w: World, n: string, e: Env)
    requires Inv(w) && Possible(w, Reconcile(n, e))
    ensures RunInv(Reconciled(w, n, e).runs[n]) && PoliciesInv(Reconciled(w, n, e), n)
  {
    var run, spec := w.runs[n], Defaulted(w.runs[n].spec);
    assert RunInv(run) && PoliciesInv(w, n);
    ValidSpecsAreUsable(run.spec);
    StepKeepsIdentity(spec, run, w, n, e);
    StepKeepsStatusInv(spec, run, w, n, e);
    StepKeepsPolicies(spec, run, w, n, e);
  }

  lemma ReconciledKeepsInv(w: World, n: string, e: Env)
    requires Inv(w) && Possible(w, Reconcile(n, e))
    ensures Inv(Reconciled(w, n, e))
  {
    var w' := Reconciled(w, n, e);
    ReconciledRunIsSound(w, n, e);
    StepChangesOnlyOwnPolicies(Defaulted(w.runs[n].spec), w.runs[n], w, n, e);
    forall m | m in w'.runs && m != n
      ensures RunInv(w'.runs[m]) && PoliciesInv(w', m)
    {
      OthersKeepTheirPolicies(w, w', n, m);
    }
  }

  lemma CreationKeepsInv(w: World, n: string, spec: RunSpec)
    requires Inv(w) && Possible(w, CreateRun(n, spec))
    ensures Inv(Next(w, CreateRun(n, spec)))
  {
    assert StatusInv(Defaulted(spec), FRESH_STATUS);
  }

  lemma AbortFlagKeepsInv(w: World, n: string, on: bool)
    requires Inv(w) && n in w.runs
    ensures Inv(Next(w, SetAbort(n, on)))
  {
    FlagsKeepRunInv(w.runs[n], on);
    AbortFlagIsSeparate(w.runs[n].spec, on);
  }

  lemma OtherEventsKeepInv(w: World, ev: Event)
    requires Inv(w) && (ev.RequestDelete? || ev.Vanish? || ev.ChangePods? || ev.Tick?)
    ensures Inv(Next(w, ev))
  {
  }

  lemma PolicyChangesKeepInv(w: World, ps: map<string, Policy>)
    requires Inv(w) && Possible(w, ChangePolicies(ps))
    ensures Inv(Next(w, ChangePolicies(ps)))
  {
    forall n | n in w.runs ensures PoliciesInv(Next(w, ChangePolicies(ps)), n) {
      assert Labelled(ps, n) <= Labelled(w.resources.policies, n);
      assert PoliciesInv(w, n);
    }
  }

  lemma NextKeepsInv(w: World, ev: Event)
    requires Inv(w)
    ensures Inv(Next(w, ev))
  {
    if Possible(w, ev) {
      match ev
      case Reconcile(n, e) => ReconciledKeepsInv(w, n, e);
      case CreateRun(n, spec) => CreationKeepsInv(w, n, spec);
      case SetAbort(n, on) => AbortFlagKeepsInv(w, n, on);
      case ChangePolicies(ps) => PolicyChangesKeepInv(w, ps);
      case _ => OtherEventsKeepInv(w, ev);
    }
  }

  lemma {:induction false} ExecKeepsInv(w: World, evs: seq<Event>)
    requires Inv(w)
    ensures Inv(Exec(w, evs))
  {
    if evs != [] {
      ExecKeepsInv(w, evs[..|evs| - 1]);
      NextKeepsInv(Exec(w, evs[..|evs| - 1]), evs[|evs| - 1]);
    }
  }

  lemma {:induction false} EveryReachableWorldIsSound(w: World, evs: seq<Event>)
    requires Initial(w)
    ensures Inv(Exec(w, evs))
  {
    ExecKeepsInv(w, evs);
  }

  /******* What late steps leave alone *******/

  predicate SameInjection(a: Status, b: Status) {
    && b.injectedPods == a.injectedPods && b.selectedPods == a.selectedPods
    && b.startedAt == a.startedAt && b.observingStartedAt == a.observingStartedAt
    && b.targetSummary == a.targetSummary
  }

  lemma ObservingLeavesInjection(spec: RunSpec, st: Status, poll: Observers.Poll, now: int)
    ensures var st' := AfterObserving(spec, st, poll, now);
            && SameInjection(st, st')
            && st'.networkPolicies == st.networkPolicies
            && st'.networkInjections == st.networkInjections && st'.exhaustionInjections == st.exhaustionInjections
            && (st'.phase == st.phase || st'.phase == PhaseCleaningUp || st'.phase == PhaseCompleted)
  {
  }

  /** What SameInjection says, and the observation, which Cleanup leaves alone too. */
  predicate SameHistory(a: Status, b: Status) {
    SameInjection(a, b) && b.observation == a.observation
  }

  lemma AfterCleanupLeavesInjection(st: Status, c: CleanupStep, now: int)
    requires KeepsTheRest(st, c.status)
    ensures var st' := AfterCleanup(c, now);
            SameHistory(st, st') && (st'.phase == st.phase || IsTerminal(st'.phase))
  {
  }

  lemma CleaningUpLeavesInjection(name: string, spec: RunSpec, run: Run, r: Resources, now: int, e: Env)
    requires Enumerates(e.policyOrder, Labelled(r.policies, name))
    ensures var run' := CleaningUp(spec, run, r, now, e).run;
            && SameHistory(run.status, run'.status)
            && (run'.status.phase == run.status.phase || IsTerminal(run'.status.phase))
  {
    if !CleanupExpired(spec, run.status, now) {
      CleanUpKeepsTheRest(name, spec, run.status, r, now, e);
      AfterCleanupLeavesInjection(run.status, CleanUp(spec, run.status, r, now, e), now);
    }
  }

  predicate Late(p: Phase) { p == PhaseObserving || p == PhaseCleaningUp || IsTerminal(p) }

  lemma LateStepsLeaveInjection(spec: RunSpec, run: Run, w: World, name: string, e: Env)
    requires Late(run.status.phase) && Enumerates(e.policyOrder, Labelled(w.resources.policies, name))
    ensures var run' := StepWith(spec, run, w, name, e).run;
            && SameInjection(run.status, run'.status)
            && (run'.status.phase == run.status.phase || run'.status.phase == PhaseCleaningUp
                || IsTerminal(run'.status.phase))
  {
    if !Live(spec, run) {
    } else if run.status.phase == PhaseObserving {
      ObservingLeavesInjection(spec, run.status, PollOf(spec, run.status, w.resources, e), w.clock);
    } else {
      CleaningUpLeavesInjection(name, spec, run, w.resources, w.clock, e);
    }
  }

  /******* Recording an injection *******/

  /** This reconcile injects for a target that passed the checks, and its first patch stores the fact. */
  predicate PersistsInjection(spec: RunSpec, run: Run, w: World, n: string, e: Env) {
    && run.status.phase == PhaseInjecting && run.status.injectedPods == [] && Live(spec, run)
    && PassesChecks(w.namespace, n, spec, w.runs, e) && !spec.safety.dryRun && e.patchOk(0)
    && Inject(n, spec, Cleared(run.status, e.target.value), e.target.value, w.resources, w.clock, e).outcome.Injected?
  }
}
