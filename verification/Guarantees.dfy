/** What holds over whole runs: no orphaned policies, phases that only advance, one injection, abort and dry run. */
module Guarantees {
  import opened Wrappers
  import opened ChaosApi
  import opened NetworkPolicies
  import opened Cluster
  import opened Drivers
  import opened Lifecycle
  import opened Execution
  import opened Invariants
  import Partition

  /******* No orphans *******/

  /** Whatever fails, crashes or is aborted on the way: a run that ends Completed or Aborted has no policy left. */
  lemma {:induction false} NoOrphanPolicies(w: World, evs: seq<Event>, n: string)
    requires Initial(w) && n in Exec(w, evs).runs
    requires Exec(w, evs).runs[n].status.phase in {PhaseCompleted, PhaseAborted}
    ensures Labelled(Exec(w, evs).resources.policies, n) == {}
  {
    EveryReachableWorldIsSound(w, evs);
    assert PoliciesInv(Exec(w, evs), n);
  }

  /** A reconcile, including its Cleanup, never touches another run or another run's policies. */
  lemma ReconcileTouchesOnlyItsOwn(w: World, n: string, e: Env)
    requires Possible(w, Reconcile(n, e))
    ensures var w' := Reconciled(w, n, e);
            && w'.runs.Keys == w.runs.Keys
            && (forall m <- w.runs :: m != n ==> w'.runs[m] == w.runs[m])
            && w'.runs[n].spec == w.runs[n].spec && w'.runs[n].deleting == w.runs[n].deleting
            && OnlyOwnPoliciesChange(n, w.resources.policies, w'.resources.policies)
  {
    StepChangesOnlyOwnPolicies(Defaulted(w.runs[n].spec), w.runs[n], w, n, e);
    StepKeepsIdentity(Defaulted(w.runs[n].spec), w.runs[n], w, n, e);
  }

  lemma SpecOnlyChangesItsAbortFlag(w: World, ev: Event, n: string)
    requires n in w.runs && !(ev.Vanish? && ev.name == n)
    ensures n in Next(w, ev).runs
    ensures Next(w, ev).runs[n].spec == w.runs[n].spec.(abort := Next(w, ev).runs[n].spec.abort)
  {
    if ev.Reconcile? && ev.name == n && Possible(w, ev) {
      StepKeepsIdentity(Defaulted(w.runs[n].spec), w.runs[n], w, n, ev.e);
    }
  }

  /** Policies survive a partition only while it runs or when it failed: a clean failure is not promised. */
  lemma {:induction false} WhoMayHoldPolicies(w: World, evs: seq<Event>, n: string)
    requires Initial(w) && n in Exec(w, evs).runs && Labelled(Exec(w, evs).resources.policies, n) != {}
    ensures var run := Exec(w, evs).runs[n];
            run.spec.scenario.kind == NetworkPartition && !run.spec.safety.dryRun
            && run.status.phase in {PhaseInjecting, PhaseObserving, PhaseCleaningUp, PhaseFailed}
  {
    EveryReachableWorldIsSound(w, evs);
    assert PoliciesInv(Exec(w, evs), n);
  }

  /** This reconcile hands the run to the partition driver, which has policies to create. */
  predicate CreatesPolicies(spec: RunSpec, run: Run, w: World, n: string, e: Env) {
    && run.status.phase == PhaseInjecting && run.status.injectedPods == [] && Live(spec, run)
    && PassesChecks(w.namespace, n, spec, w.runs, e) && !spec.safety.dryRun
    && spec.scenario.kind == NetworkPartition && spec.scenario.network.Some?
    && Partition.PoliciesFor(n, spec.scenario.network.value).Some?
  }

  /** The policies it creates, in order. */
  function PoliciesDue(spec: RunSpec, n: string): seq<Policy>
    requires spec.scenario.network.Some? && Partition.PoliciesFor(n, spec.scenario.network.value).Some?
  {
    Partition.PoliciesFor(n, spec.scenario.network.value).value
  }

  /** No policy of another owner has one of the run's two names. */
  predicate NamesAreFree(policies: map<string, Policy>, n: string) {
    forall p <- policies :: p == IngressName(n) || p == EgressName(n) ==> policies[p].runName == Some(n)
  }

  lemma FailedDriverFails(spec: RunSpec, run: Run, step: InjectStep, count: nat, now: int, e: Env)
    requires run.status.phase == PhaseInjecting && step.status.phase == PhaseInjecting
    ensures AfterDriver(spec, run, step, count, now, e).status.phase == PhaseFailed
            <==> step.outcome.InjectFailed? && e.patchOk(0)
  {
  }

  /** A driver that fails adds to what was there. */
  lemma FailedDriverLeaves(spec: RunSpec, run: Run, w: World, n: string, e: Env)
    requires CreatesPolicies(spec, run, w, n, e) && NamesAreFree(w.resources.policies, n)
    requires StepWith(spec, run, w, n, e).run.status.phase == PhaseFailed
    ensures PoliciesDue(spec, n) != []
    ensures Labelled(StepWith(spec, run, w, n, e).resources.policies, n) == {} <==>
              Labelled(w.resources.policies, n) == {} && e.createFault(PoliciesDue(spec, n)[0].name) == NotApplied
  {
    var st, target, due := Cleared(run.status, e.target.value), e.target.value, PoliciesDue(spec, n);
    var step := Inject(n, spec, st, target, w.resources, w.clock, e);
    assert StepWith(spec, run, w, n, e)
           == Local(AfterDriver(spec, run, step, |target.tmPods|, w.clock, e), step.resources);
    FailedDriverFails(spec, run, step, |target.tmPods|, w.clock, e);
    if p :| p in Labelled(w.resources.policies, n) {
      Partition.InjectionAddsOnlyOwnPolicies(n, spec.scenario.network, st, target, w.resources, e);
      assert p in Labelled(step.resources.policies, n);
    } else {
      FreeNamesAreUnused(spec, w.resources.policies, n);
      Partition.FailedInjectionIsCleanIffNothingWasCreated(
        n, spec.scenario.network.value, st, target, w.resources, e);
    }
  }

  lemma FreeNamesAreUnused(spec: RunSpec, policies: map<string, Policy>, n: string)
    requires spec.scenario.network.Some? && Partition.PoliciesFor(n, spec.scenario.network.value).Some?
    requires NamesAreFree(policies, n) && Labelled(policies, n) == {}
    ensures forall p <- PoliciesDue(spec, n) :: p.name !in policies
  {
    Partition.PoliciesCarryTheRun(n, spec.scenario.network.value);
    forall p | p in PoliciesDue(spec, n) ensures p.name !in policies {
      assert p.name in policies ==> p.name in Labelled(policies, n);
    }
  }

  lemma OtherFailuresLeaveResources(spec: RunSpec, run: Run, w: World, n: string, e: Env)
    requires !IsTerminal(run.status.phase) && spec.scenario.kind == NetworkPartition
    requires StepWith(spec, run, w, n, e).run.status.phase == PhaseFailed
    requires Enumerates(e.policyOrder, Labelled(w.resources.policies, n))
    requires !CreatesPolicies(spec, run, w, n, e)
    ensures StepWith(spec, run, w, n, e).resources == w.resources
  {
    if run.status.phase == PhaseObserving {
      ObservingLeavesInjection(spec, run.status, PollOf(spec, run.status, w.resources, e), w.clock);
    } else if run.status.phase == PhaseCleaningUp {
      CleanUpKeepsTheRest(n, spec, run.status, w.resources, w.clock, e);
    }
  }

  /**
   No partition that becomes Failed is cleaned up, however it fails: an invalid spec, an unresolved target or a
   rejection after a lost patch, a driver error, or the cleanup deadline. It is clean exactly when it was clean
   before and the driver, if it ran, did not get its first creation through to the API server.
   */
  lemma FailedPartitionIsCleanIff(spec: RunSpec, run: Run, w: World, n: string, e: Env)
    requires !IsTerminal(run.status.phase) && spec.scenario.kind == NetworkPartition
    requires StepWith(spec, run, w, n, e).run.status.phase == PhaseFailed
    requires Enumerates(e.policyOrder, Labelled(w.resources.policies, n)) && NamesAreFree(w.resources.policies, n)
    ensures CreatesPolicies(spec, run, w, n, e) ==> PoliciesDue(spec, n) != []
    ensures Labelled(StepWith(spec, run, w, n, e).resources.policies, n) == {} <==>
              && Labelled(w.resources.policies, n) == {}
              && (CreatesPolicies(spec, run, w, n, e) ==> e.createFault(PoliciesDue(spec, n)[0].name) == NotApplied)
  {
    if CreatesPolicies(spec, run, w, n, e) {
      FailedDriverLeaves(spec, run, w, n, e);
    } else {
      OtherFailuresLeaveResources(spec, run, w, n, e);
    }
  }

  /******* Phases *******/

  function Rank(p: Phase): nat {
    match p
    case PhaseUnset => 0
    case PhasePending => 0
    case PhaseInjecting => 1
    case PhaseObserving => 2
    case PhaseCleaningUp => 3
    case _ => 4
  }

  lemma InjectingNeverGoesBack(
      namespace: string, n: string, spec: RunSpec, run: Run, peers: map<string, Run>, r: Resources, now: int, e: Env)
    requires run.status.phase == PhaseInjecting
    ensures Rank(Injecting(namespace, n, spec, run, peers, r, now, e).run.status.phase) >= 1
  {
    if !spec.safety.dryRun {
      PhasesAfterInjecting(namespace, n, spec, run, peers, r, now, e);
    }
  }

  lemma StepNeverGoesBack(spec: RunSpec, run: Run, w: World, n: string, e: Env)
    requires Enumerates(e.policyOrder, Labelled(w.resources.policies, n))
    ensures Rank(StepWith(spec, run, w, n, e).run.status.phase) >= Rank(run.status.phase)
  {
    if Late(run.status.phase) {
      LateStepsLeaveInjection(spec, run, w, n, e);
    } else if run.status.phase == PhaseInjecting {
      InjectingNeverGoesBack(w.namespace, n, spec, run, w.runs, w.resources, w.clock, e);
    }
  }

  predicate NotVanished(evs: seq<Event>, n: string) {
    forall i :: 0 <= i < |evs| ==> !(evs[i].Vanish? && evs[i].name == n)
  }

  lemma NextNeverGoesBack(w: World, ev: Event, n: string)
    requires n in w.runs && !(ev.Vanish? && ev.name == n)
    ensures n in Next(w, ev).runs
    ensures Rank(Next(w, ev).runs[n].status.phase) >= Rank(w.runs[n].status.phase)
  {
    if Possible(w, ev) && ev.Reconcile? && ev.name == n {
      StepNeverGoesBack(Defaulted(w.runs[n].spec), w.runs[n], w, n, ev.e);
    }
  }

  /** No step, fault, crash or user action takes a run back to an earlier phase. */
  lemma {:induction false} PhaseNeverGoesBack(w: World, evs: seq<Event>, n: string)
    requires n in w.runs && NotVanished(evs, n)
    ensures n in Exec(w, evs).runs
    ensures Rank(Exec(w, evs).runs[n].status.phase) >= Rank(w.runs[n].status.phase)
  {
    if evs != [] {
      PhaseNeverGoesBack(w, evs[..|evs| - 1], n);
      NextNeverGoesBack(Exec(w, evs[..|evs| - 1]), evs[|evs| - 1], n);
    }
  }

  /** A terminal status is never written again. */
  lemma {:induction false} TerminalIsFinal(w: World, evs: seq<Event>, n: string)
    requires n in w.runs && NotVanished(evs, n) && IsTerminal(w.runs[n].status.phase)
    ensures n in Exec(w, evs).runs
    ensures Exec(w, evs).runs[n].status == w.runs[n].status && Exec(w, evs).runs[n].finalizer == w.runs[n].finalizer
  {
    if evs != [] {
      TerminalIsFinal(w, evs[..|evs| - 1], n);
    }
  }

  /**
   A terminal run that still carries the finalizer keeps it for ever, so even a deleted one never goes
   away: the deletion branch is behind the terminal check.
   */
  lemma {:induction false} TerminalFinalizerIsForever(w: World, evs: seq<Event>, n: string)
    requires n in w.runs && IsTerminal(w.runs[n].status.phase) && w.runs[n].finalizer
    ensures n in Exec(w, evs).runs && Exec(w, evs).runs[n].finalizer
    ensures IsTerminal(Exec(w, evs).runs[n].status.phase)
  {
    if evs != [] {
      TerminalFinalizerIsForever(w, evs[..|evs| - 1], n);
    }
  }

  lemma DriverKeepsFinalizerAtTheEnd(spec: RunSpec, run: Run, step: InjectStep, count: nat, now: int, e: Env)
    requires !IsTerminal(run.status.phase) && !IsTerminal(step.status.phase)
    requires IsTerminal(AfterDriver(spec, run, step, count, now, e).status.phase)
    ensures AfterDriver(spec, run, step, count, now, e).finalizer == run.finalizer
  {
  }

  lemma InjectingKeepsFinalizerAtTheEnd(
      namespace: string, n: string, spec: RunSpec, run: Run, peers: map<string, Run>, r: Resources, now: int, e: Env)
    requires run.status.phase == PhaseInjecting
    requires IsTerminal(Injecting(namespace, n, spec, run, peers, r, now, e).run.status.phase)
    ensures Injecting(namespace, n, spec, run, peers, r, now, e).run.finalizer == run.finalizer
  {
    if run.status.injectedPods == [] && PassesChecks(namespace, n, spec, peers, e) && !spec.safety.dryRun {
      var target := e.target.value;
      var step := Inject(n, spec, Cleared(run.status, target), target, r, now, e);
      InjectKeepsTheRest(n, spec, Cleared(run.status, target), target, r, now, e);
      DriverKeepsFinalizerAtTheEnd(spec, run, step, |target.tmPods|, now, e);
    }
  }

  /** A regular end out of CleaningUp whose second patch succeeds; no other end drops the finalizer. */
  predicate DropsFinalizer(run: Run, run': Run, e: Env) {
    run.status.phase == PhaseCleaningUp && run'.status.phase != PhaseFailed && e.patchOk(1)
  }

  lemma CleaningUpDropsFinalizerIff(spec: RunSpec, run: Run, r: Resources, now: int, e: Env, n: string)
    requires run.status.phase == PhaseCleaningUp && Enumerates(e.policyOrder, Labelled(r.policies, n))
    requires IsTerminal(CleaningUp(spec, run, r, now, e).run.status.phase)
    ensures var run' := CleaningUp(spec, run, r, now, e).run;
            run'.finalizer <==> run.finalizer && !DropsFinalizer(run, run', e)
  {
    CleanUpKeepsTheRest(n, spec, run.status, r, now, e);
  }

  /** For every step that ends a run: which runs keep the finalizer, and so keep it for ever. */
  lemma EndingKeepsFinalizerIff(spec: RunSpec, run: Run, w: World, n: string, e: Env)
    requires !IsTerminal(run.status.phase) && IsTerminal(StepWith(spec, run, w, n, e).run.status.phase)
    requires Enumerates(e.policyOrder, Labelled(w.resources.policies, n))
    ensures var run' := StepWith(spec, run, w, n, e).run;
            run'.finalizer <==> run.finalizer && !DropsFinalizer(run, run', e)
  {
    if Live(spec, run) {
      if run.status.phase == PhaseInjecting {
        InjectingKeepsFinalizerAtTheEnd(w.namespace, n, spec, run, w.runs, w.resources, w.clock, e);
      } else if run.status.phase == PhaseCleaningUp {
        CleaningUpDropsFinalizerIff(spec, run, w.resources, w.clock, e, n);
      }
    }
  }

  /******* Injection *******/

  /** Chaos starts in a reconcile: a policy or an ephemeral container appears, or a pod is deleted. */
  predicate Disturbs(before: Resources, after: Resources) {
    || !(after.policies.Keys <= before.policies.Keys)
    || after.pods != before.pods
  }

  /**
   Chaos starts only in the Injecting phase, for a target that passed every check in that very
   reconcile, never in a dry run, and never again once injected pods are on record.
   */
  lemma InjectsOnlyWhenCleared(w: World, n: string, e: Env)
    requires Possible(w, Reconcile(n, e))
    ensures var run, spec := w.runs[n], Defaulted(w.runs[n].spec);
            Disturbs(w.resources, Reconciled(w, n, e).resources) ==>
            && run.status.phase == PhaseInjecting && run.status.injectedPods == []
            && PassesChecks(w.namespace, n, spec, w.runs, e)
            && Live(spec, run) && !spec.safety.dryRun
  {
    CleanUpKeepsTheRest(n, Defaulted(w.runs[n].spec), w.runs[n].status, w.resources, w.clock, e);
  }

  lemma StepKeepsInjectedPods(spec: RunSpec, run: Run, w: World, n: string, e: Env)
    requires Enumerates(e.policyOrder, Labelled(w.resources.policies, n))
    requires run.status.injectedPods != [] && !Early(run.status.phase)
    ensures StepWith(spec, run, w, n, e).run.status.injectedPods == run.status.injectedPods
  {
    if Late(run.status.phase) {
      LateStepsLeaveInjection(spec, run, w, n, e);
    }
  }

  lemma NextKeepsInjectedPods(w: World, ev: Event, n: string)
    requires n in w.runs && !(ev.Vanish? && ev.name == n)
    requires w.runs[n].status.injectedPods != [] && !Early(w.runs[n].status.phase)
    ensures n in Next(w, ev).runs && Next(w, ev).runs[n].status.injectedPods == w.runs[n].status.injectedPods
  {
    if ev.Reconcile? && ev.name == n && Possible(w, ev) {
      StepKeepsInjectedPods(Defaulted(w.runs[n].spec), w.runs[n], w, n, ev.e);
    }
  }

  /** The record of injected pods is written once. */
  lemma {:induction false} InjectionIsRecordedOnce(w: World, evs: seq<Event>, n: string)
    requires n in w.runs && NotVanished(evs, n)
    requires w.runs[n].status.injectedPods != [] && !Early(w.runs[n].status.phase)
    ensures n in Exec(w, evs).runs && Exec(w, evs).runs[n].status.injectedPods == w.runs[n].status.injectedPods
  {
    if evs != [] {
      InjectionIsRecordedOnce(w, evs[..|evs| - 1], n);
      PhaseNeverGoesBack(w, evs[..|evs| - 1], n);
      NextKeepsInjectedPods(Exec(w, evs[..|evs| - 1]), evs[|evs| - 1], n);
    }
  }

  /******* Abort and dry run *******/

  /** Where an honoured abort can be seen: on its way through cleanup, Aborted, or Failed by the cleanup deadline. */
  lemma {:induction false} AbortedRunsEndAborted(w: World, evs: seq<Event>, n: string)
    requires Initial(w) && n in Exec(w, evs).runs && HasConditionTrue(Exec(w, evs).runs[n].status, AbortRequested)
    ensures var st := Exec(w, evs).runs[n].status;
            || st.phase == PhaseCleaningUp
            || st.phase == PhaseAborted
            || (st.phase == PhaseFailed && NetworkChaosCleanedUp in st.conditions
                && !st.conditions[NetworkChaosCleanedUp])
  {
    EveryReachableWorldIsSound(w, evs);
    assert RunInv(Exec(w, evs).runs[n]);
  }

  lemma DryRunStepsAreHarmless(spec: RunSpec, run: Run, w: World, n: string, e: Env)
    requires spec.safety.dryRun && e.policyOrder == []
    ensures StepWith(spec, run, w, n, e).resources == w.resources
  {
    var r := w.resources;
    assert Partition.DeletedAll(r.policies, [], e.deleteFault) == (r.policies, true);
    assert r.(policies := r.policies) == r;
  }

  lemma EmptyListing(names: seq<string>, s: set<string>)
    requires Enumerates(names, s)
    ensures s == {} ==> names == []
  {
    if names != [] {
      assert names[0] in s;
    }
  }

  lemma DryRunFacts(w: World, n: string)
    requires Inv(w) && n in w.runs && Defaulted(w.runs[n].spec).safety.dryRun
    ensures var st := w.runs[n].status;
            && st.phase != PhaseObserving && st.injectedPods == []
            && (st.phase == PhaseCompleted ==> st.verdict == VerdictInconclusive)
            && Labelled(w.resources.policies, n) == {}
  {
    assert RunInv(w.runs[n]) && PoliciesInv(w, n);
  }

  /** A dry run never changes the cluster, never observes, and can complete only as Inconclusive. */
  lemma DryRunsAreHarmless(w: World, evs: seq<Event>, n: string, e: Env)
    requires Initial(w) && n in Exec(w, evs).runs && Exec(w, evs).runs[n].spec.safety.dryRun
    requires Possible(Exec(w, evs), Reconcile(n, e))
    ensures var w' := Exec(w, evs); var st := w'.runs[n].status;
            && Reconciled(w', n, e).resources == w'.resources
            && st.phase != PhaseObserving && st.injectedPods == []
            && (st.phase == PhaseCompleted ==> st.verdict == VerdictInconclusive)
  {
    var w' := Exec(w, evs);
    EveryReachableWorldIsSound(w, evs);
    DryRunFacts(w', n);
    EmptyListing(e.policyOrder, Labelled(w'.resources.policies, n));
    DryRunStepsAreHarmless(Defaulted(w'.runs[n].spec), w'.runs[n], w', n, e);
  }
}
