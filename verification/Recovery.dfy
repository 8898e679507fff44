/** What "Passed" means for an observed TaskManagerPodKill: the deciding poll saw a recovered workload. */
module Recovery {
  import opened Wrappers
  import opened ChaosApi
  import opened Cluster
  import opened Drivers
  import opened Lifecycle
  import opened Execution
  import opened Invariants
  import opened Guarantees
  import opened Observers
  import opened Verdicts

  /******* The size of the target when it was injected *******/

  /** The number of TaskManagers this reconcile resolved, if it injected and persisted that; else `count`. */
  function InjectedCountAt(spec: RunSpec, run: Run, w: World, n: string, e: Env, count: Option<nat>): Option<nat> {
    if PersistsInjection(spec, run, w, n, e) then Some(|e.target.value.tmPods|) else count
  }

  function LaterCount(w: World, ev: Event, n: string, count: Option<nat>): Option<nat> {
    if ev.Reconcile? && ev.name == n && Possible(w, ev)
    then InjectedCountAt(Defaulted(w.runs[n].spec), w.runs[n], w, n, ev.e, count)
    else count
  }

  /** The latest such number. */
  function InjectedCount(w: World, evs: seq<Event>, n: string): Option<nat> {
    if evs == [] then None
    else LaterCount(Exec(w, evs[..|evs| - 1]), evs[|evs| - 1], n, InjectedCount(w, evs[..|evs| - 1], n))
  }

  function Baseline(st: Status): nat {
    match st.observation case Some(o) => o.countBefore case None => 0
  }

  /** Once the injection is on record, the baseline is at least the number of TaskManagers it resolved. */
  predicate CountInv(st: Status, count: Option<nat>) {
    st.phase == PhaseObserving || st.injectedPods != [] ==> count.Some? && Baseline(st) >= count.value
  }

  lemma AfterInjectionCounts(
      spec: RunSpec, run: Run, st: Status, selected: seq<string>, injected: seq<string>, count: nat, now: int, e: Env)
    requires run.status.phase == PhaseInjecting && run.status.injectedPods == []
    ensures var st' := AfterInjection(spec, run, Recorded(st, selected, injected, count), now, e).status;
            CountInv(st', if e.patchOk(0) then Some(count) else None)
  {
  }

  lemma AfterDriverCounts(
      spec: RunSpec, run: Run, step: InjectStep, k: nat, now: int, e: Env, count: Option<nat>)
    requires run.status.phase == PhaseInjecting && run.status.injectedPods == []
    requires step.status.phase == PhaseInjecting && step.status.injectedPods == []
    ensures CountInv(AfterDriver(spec, run, step, k, now, e).status,
                     if step.outcome.Injected? && e.patchOk(0) then Some(k) else count)
  {
    if step.outcome.Injected? {
      AfterInjectionCounts(spec, run, step.status, step.outcome.selected, step.outcome.injected, k, now, e);
    }
  }

  lemma NotInjectingCounts(spec: RunSpec, run: Run, w: World, n: string, e: Env, count: Option<nat>)
    requires run.status.phase == PhaseInjecting && CountInv(run.status, count)
    requires run.status.injectedPods != [] || !PassesChecks(w.namespace, n, spec, w.runs, e) || spec.safety.dryRun
    ensures CountInv(Injecting(w.namespace, n, spec, run, w.runs, w.resources, w.clock, e).run.status, count)
  {
  }

  lemma InjectingCounts(spec: RunSpec, run: Run, w: World, n: string, e: Env, count: Option<nat>)
    requires run.status.phase == PhaseInjecting && CountInv(run.status, count) && Live(spec, run)
    ensures CountInv(Injecting(w.namespace, n, spec, run, w.runs, w.resources, w.clock, e).run.status,
                     InjectedCountAt(spec, run, w, n, e, count))
  {
    var st := run.status;
    if st.injectedPods == [] && PassesChecks(w.namespace, n, spec, w.runs, e) && !spec.safety.dryRun {
      var target := e.target.value;
      var step := Inject(n, spec, Cleared(st, target), target, w.resources, w.clock, e);
      InjectKeepsTheRest(n, spec, Cleared(st, target), target, w.resources, w.clock, e);
      AfterDriverCounts(spec, run, step, |target.tmPods|, w.clock, e, count);
    } else {
      NotInjectingCounts(spec, run, w, n, e, count);
    }
  }

  lemma ObservingCounts(spec: RunSpec, st: Status, poll: Poll, now: int, count: Option<nat>)
    requires st.phase == PhaseObserving && CountInv(st, count)
    ensures CountInv(AfterObserving(spec, st, poll, now), count)
  {
  }

  lemma PendingCounts(spec: RunSpec, run: Run, now: int, e: Env, count: Option<nat>)
    requires Early(run.status.phase) && run.status.injectedPods == []
    ensures CountInv(Pending(spec, run, now, e).status, count)
  {
  }

  lemma AbortingCounts(spec: RunSpec, run: Run, now: int, e: Env, count: Option<nat>)
    requires CountInv(run.status, count)
    ensures CountInv(Aborting(spec, run, now, e).status, count)
  {
  }

  lemma OtherStepCounts(spec: RunSpec, run: Run, w: World, n: string, e: Env, count: Option<nat>)
    requires CountInv(run.status, count) && StatusInv(spec, run.status)
    requires Enumerates(e.policyOrder, Labelled(w.resources.policies, n))
    requires run.status.phase != PhaseInjecting || !Live(spec, run)
    ensures CountInv(StepWith(spec, run, w, n, e).run.status, count)
  {
    if !Live(spec, run) {
      AbortingCounts(spec, run, w.clock, e, count);
    } else if run.status.phase == PhaseObserving {
      ObservingCounts(spec, run.status, PollOf(spec, run.status, w.resources, e), w.clock, count);
    } else if run.status.phase == PhaseCleaningUp {
      CleaningUpLeavesInjection(n, spec, run, w.resources, w.clock, e);
    } else {
      PendingCounts(spec, run, w.clock, e, count);
    }
  }

  lemma StepCounts(spec: RunSpec, run: Run, w: World, n: string, e: Env, count: Option<nat>)
    requires CountInv(run.status, count) && StatusInv(spec, run.status)
    requires Enumerates(e.policyOrder, Labelled(w.resources.policies, n))
    ensures CountInv(StepWith(spec, run, w, n, e).run.status, InjectedCountAt(spec, run, w, n, e, count))
  {
    if Live(spec, run) && run.status.phase == PhaseInjecting {
      InjectingCounts(spec, run, w, n, e, count);
    } else {
      OtherStepCounts(spec, run, w, n, e, count);
    }
  }

  lemma NextCounts(w: World, ev: Event, n: string, count: Option<nat>)
    requires n in w.runs && !(ev.Vanish? && ev.name == n) && RunInv(w.runs[n]) && CountInv(w.runs[n].status, count)
    ensures n in Next(w, ev).runs
    ensures CountInv(Next(w, ev).runs[n].status, LaterCount(w, ev, n, count))
  {
    if ev.Reconcile? && ev.name == n && Possible(w, ev) {
      StepCounts(Defaulted(w.runs[n].spec), w.runs[n], w, n, ev.e, count);
    }
  }

  lemma {:induction false} ExecCounts(w: World, evs: seq<Event>, n: string)
    requires Inv(w) && n in w.runs && w.runs[n].status == FRESH_STATUS && NotVanished(evs, n)
    ensures n in Exec(w, evs).runs && CountInv(Exec(w, evs).runs[n].status, InjectedCount(w, evs, n))
  {
    if evs != [] {
      var before := Exec(w, evs[..|evs| - 1]);
      ExecCounts(w, evs[..|evs| - 1], n);
      ExecKeepsInv(w, evs[..|evs| - 1]);
      NextCounts(before, evs[|evs| - 1], n, InjectedCount(w, evs[..|evs| - 1], n));
    }
  }

  /******* The deciding poll *******/

  predicate PassedPodKill(run: Run) {
    var spec := Defaulted(run.spec);
    && run.status.phase == PhaseCompleted && run.status.verdict == VerdictPassed
    && spec.observe.enabled && !spec.safety.dryRun && spec.scenario.kind == TaskManagerPodKill
  }

  /**
   This event decides that the pod kill is Passed: a reconcile that can happen, asks the observer inside the
   window and persists the answer, from a run that had not ended to one that is Passed.
   */
  predicate Decides(w: World, ev: Event, n: string)
    requires n in w.runs
  {
    && ev.Reconcile? && ev.name == n && Possible(w, ev)
    && !IsTerminal(w.runs[n].status.phase)
    && Asks(Defaulted(w.runs[n].spec), w.runs[n], w.clock) && ev.e.patchOk(0)
    && n in Next(w, ev).runs && PassedPodKill(Next(w, ev).runs[n])
  }

  /** The deciding poll found the workload recovered, for the pods on record as injected. */
  predicate SawRecovery(w: World, ev: Event, n: string, injected: seq<string>, count: Option<nat>) {
    && n in w.runs && Decides(w, ev, n)
    && var spec, st, e := Defaulted(w.runs[n].spec), w.runs[n].status, ev.e;
       && st.injectedPods == injected
       && Recovered(spec.observe, injected, st.observation, e.target, w.resources.pods, e)
       && count.Some?
       && (RestEnabled(spec.observe.rest) ==> e.taskManagers.Some? && e.taskManagers.value >= count.value)
  }

  /** One of the events decided, in the world it happened in. */
  predicate PassedSoundly(w: World, evs: seq<Event>, n: string, injected: seq<string>) {
    evs != [] &&
    var before, ev := evs[..|evs| - 1], evs[|evs| - 1];
    || SawRecovery(Exec(w, before), ev, n, injected, InjectedCount(w, before, n))
    || PassedSoundly(w, before, n, injected)
  }

  /** The step that makes a pod kill Passed is a ready poll. */
  lemma PassingStepSawRecovery(spec: RunSpec, run: Run, w: World, n: string, e: Env)
    requires StatusInv(spec, run.status) && !IsTerminal(run.status.phase)
    requires spec.observe.enabled && !spec.safety.dryRun && spec.scenario.kind == TaskManagerPodKill
    requires Enumerates(e.policyOrder, Labelled(w.resources.policies, n))
    requires var st' := StepWith(spec, run, w, n, e).run.status;
             st'.phase == PhaseCompleted && st'.verdict == VerdictPassed
    ensures Asks(spec, run, w.clock) && e.patchOk(0)
    ensures Recovered(spec.observe, run.status.injectedPods, run.status.observation, e.target, w.resources.pods, e)
    ensures StepWith(spec, run, w, n, e).run.status.injectedPods == run.status.injectedPods
  {
    if run.status.phase == PhaseInjecting && Live(spec, run) {
      PhasesAfterInjecting(w.namespace, n, spec, run, w.runs, w.resources, w.clock, e);
    } else if run.status.phase == PhaseObserving && Live(spec, run) {
      ReadyIffRecovered(spec.observe, run.status.injectedPods, run.status.observation, e.target, w.resources.pods, e);
      ObservingPassesOnReadyPoll(spec, run.status, PollOf(spec, run.status, w.resources, e), w.clock);
      ObservingLeavesInjection(spec, run.status, PollOf(spec, run.status, w.resources, e), w.clock);
    } else if run.status.phase == PhaseCleaningUp {
      CleanUpKeepsTheRest(n, spec, run.status, w.resources, w.clock, e);
    }
  }

  lemma ObservingPassesOnReadyPoll(spec: RunSpec, st: Status, poll: Poll, now: int)
    requires StatusInv(spec, st) && st.phase == PhaseObserving && spec.observe.enabled
    requires spec.scenario.kind == TaskManagerPodKill
    requires AfterObserving(spec, st, poll, now).phase == PhaseCompleted
    requires AfterObserving(spec, st, poll, now).verdict == VerdictPassed
    ensures poll.Ok? && poll.value.ready && !WindowElapsed(spec, st, now) && !HeldForDuration(spec, st)
  {
  }

  /** The event after which a pod kill is Passed for the first time. */
  lemma PassingEventSawRecovery(w: World, ev: Event, n: string, count: Option<nat>)
    requires n in w.runs && !(ev.Vanish? && ev.name == n) && RunInv(w.runs[n]) && CountInv(w.runs[n].status, count)
    requires !IsTerminal(w.runs[n].status.phase)
    requires n in Next(w, ev).runs && PassedPodKill(Next(w, ev).runs[n])
    ensures SawRecovery(w, ev, n, Next(w, ev).runs[n].status.injectedPods, count)
  {
    var run := w.runs[n];
    assert ev.Reconcile? && ev.name == n && Possible(w, ev);
    StepKeepsIdentity(Defaulted(run.spec), run, w, n, ev.e);
    PassingStepSawRecovery(Defaulted(run.spec), run, w, n, ev.e);
  }

  lemma PassedNow(w: World, evs: seq<Event>, n: string)
    requires Inv(w) && n in w.runs && w.runs[n].status == FRESH_STATUS && NotVanished(evs, n) && evs != []
    requires n in Exec(w, evs[..|evs| - 1]).runs && !IsTerminal(Exec(w, evs[..|evs| - 1]).runs[n].status.phase)
    requires n in Exec(w, evs).runs && PassedPodKill(Exec(w, evs).runs[n])
    ensures PassedSoundly(w, evs, n, Exec(w, evs).runs[n].status.injectedPods)
  {
    var k := |evs| - 1;
    ExecCounts(w, evs[..k], n);
    ExecKeepsInv(w, evs[..k]);
    PassingEventSawRecovery(Exec(w, evs[..k]), evs[k], n, InjectedCount(w, evs[..k], n));
  }

  lemma {:induction false} PassedSinceCreation(w: World, evs: seq<Event>, n: string)
    requires Inv(w) && n in w.runs && w.runs[n].status == FRESH_STATUS && NotVanished(evs, n)
    requires n in Exec(w, evs).runs && PassedPodKill(Exec(w, evs).runs[n])
    ensures PassedSoundly(w, evs, n, Exec(w, evs).runs[n].status.injectedPods)
  {
    if evs != [] {
      var before := Exec(w, evs[..|evs| - 1]);
      PhaseNeverGoesBack(w, evs[..|evs| - 1], n);
      if IsTerminal(before.runs[n].status.phase) {
        PassedStays(before, evs[|evs| - 1], n);
        PassedSinceCreation(w, evs[..|evs| - 1], n);
      } else {
        PassedNow(w, evs, n);
      }
    }
  }

  lemma PassedStays(w: World, ev: Event, n: string)
    requires n in w.runs && !(ev.Vanish? && ev.name == n) && IsTerminal(w.runs[n].status.phase)
    ensures n in Next(w, ev).runs && Next(w, ev).runs[n].status == w.runs[n].status
    ensures PassedPodKill(Next(w, ev).runs[n]) ==> PassedPodKill(w.runs[n])
  {
    SpecOnlyChangesItsAbortFlag(w, ev, n);
    AbortFlagIsSeparate(w.runs[n].spec, Next(w, ev).runs[n].spec.abort);
  }

  /**
   Whatever happened before it was created, a TaskManagerPodKill that is Passed became so by a poll that found
   no injected pod live, at least one TaskManager, every live one Running with all containers ready, and,
   with Flink REST on, a RUNNING job and at least as many TaskManagers as had been resolved for the injection.
   */
  lemma {:induction false} PassedPodKillRecovered(w: World, past: seq<Event>, evs: seq<Event>, n: string)
    requires Initial(w) && n in Exec(w, past).runs && Exec(w, past).runs[n].status == FRESH_STATUS
    requires NotVanished(evs, n)
    requires n in Exec(Exec(w, past), evs).runs && PassedPodKill(Exec(Exec(w, past), evs).runs[n])
    ensures PassedSoundly(Exec(w, past), evs, n, Exec(Exec(w, past), evs).runs[n].status.injectedPods)
  {
    EveryReachableWorldIsSound(w, past);
    PassedSinceCreation(Exec(w, past), evs, n);
  }
}
