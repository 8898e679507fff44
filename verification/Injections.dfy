/** How often a run injects: once, and once more for every injection that its patches do not settle. */
module Injections {
  import opened Wrappers
  import opened ChaosApi
  import opened Cluster
  import opened Drivers
  import opened Lifecycle
  import opened Execution
  import opened Invariants
  import opened Guarantees
  import Containers
  import PodKill
  import Ephemeral

  predicate ReconcilesRun(w: World, ev: Event, n: string) {
    ev.Reconcile? && ev.name == n && Possible(w, ev)
  }

  /** Chaos starts in this event. */
  predicate Injects(w: World, ev: Event, n: string) {
    ReconcilesRun(w, ev, n) && Disturbs(w.resources, Next(w, ev).resources)
  }

  /** What the driver does in this reconcile of a run that passes its checks. */
  function DriverStep(w: World, n: string, e: Env): InjectStep
    requires n in w.runs && e.target.Some?
  {
    var spec, st := Defaulted(w.runs[n].spec), Cleared(w.runs[n].status, e.target.value);
    Inject(n, spec, st, e.target.value, w.resources, w.clock, e)
  }

  /**
   The patches after a driver that did not panic settle the run: the first one is enough if the driver failed
   or named a pod, else the run has to get as far as Observing.
   */
  predicate PatchesSettle(spec: RunSpec, run: Run, outcome: Outcome, e: Env) {
    && e.patchOk(0) && !outcome.InjectPanicked?
    && (|| outcome.InjectFailed?
        || outcome.injected != []
        || (e.patchOk(2) && (NeedsCleanup(spec.scenario.kind) && !run.finalizer ==> e.patchOk(1))))
  }

  /** Chaos starts in this event, and the run may start it again. */
  predicate LosesInjection(w: World, ev: Event, n: string) {
    && Injects(w, ev, n) && ev.e.target.Some?
    && !PatchesSettle(Defaulted(w.runs[n].spec), w.runs[n], DriverStep(w, n, ev.e).outcome, ev.e)
  }

  function CountInjections(w: World, evs: seq<Event>, n: string): nat {
    if evs == [] then 0
    else
      var before := evs[..|evs| - 1];
      CountInjections(w, before, n) + if Injects(Exec(w, before), evs[|evs| - 1], n) then 1 else 0
  }

  lemma CountOfAppended(w: World, evs: seq<Event>, ev: Event, n: string)
    requires Injects(Exec(w, evs), ev, n)
    ensures CountInjections(w, evs + [ev], n) == CountInjections(w, evs, n) + 1
  {
    assert (evs + [ev])[..|evs|] == evs;
  }

  function CountLost(w: World, evs: seq<Event>, n: string): nat {
    if evs == [] then 0
    else
      var before := evs[..|evs| - 1];
      CountLost(w, before, n) + if LosesInjection(Exec(w, before), evs[|evs| - 1], n) then 1 else 0
  }

  /** The run cannot inject any more. */
  predicate Spent(st: Status) {
    !Early(st.phase) && (st.phase != PhaseInjecting || st.injectedPods != [])
  }

  /******* One step *******/

  lemma PodKillRecordsWhatItKills(spec: RunSpec, st: Status, target: ResolvedTarget, r: Resources, e: Env)
    requires var s := InjectPodKill(spec, st, target, r, e); s.outcome.Injected? && s.resources != r
    ensures InjectPodKill(spec, st, target, r, e).outcome.injected != []
  {
    var selected := PodKill.Selected(spec.scenario.selection, target.tmPods, e.swaps).value;
    PodKill.DeletesAPrefix(r.pods, selected, e.deleteFault);
  }

  lemma ContainersAreRecorded(
      prefix: string, run: string, names: seq<string>, pods: map<string, Pod>, now: int, e: Env)
    requires Containers.Started(prefix, run, names, 0, pods, now, e).ok && names != []
    ensures Containers.PodsOf(Containers.Started(prefix, run, names, 0, pods, now, e).records) != []
  {
    Containers.StartingOnlyAdds(prefix, run, names, 0, pods, now, e);
  }

  /** A successful injection that disturbed anything names a pod. */
  lemma InjectionsAreNamed(
      name: string, spec: RunSpec, st: Status, target: ResolvedTarget, r: Resources, now: int, e: Env)
    requires var s := Inject(name, spec, st, target, r, now, e); s.outcome.Injected? && s.resources != r
    requires target.tmPods != []
    ensures Inject(name, spec, st, target, r, now, e).outcome.injected != []
  {
    match spec.scenario.kind
    case TaskManagerPodKill => PodKillRecordsWhatItKills(spec, st, target, r, e);
    case NetworkChaos =>
      if st.networkInjections == [] {
        ContainersAreRecorded(Ephemeral.TC_PREFIX, name, target.tmPods, r.pods, now, e);
      }
    case ResourceExhaustion =>
      if st.exhaustionInjections == [] {
        var names := if st.selectedPods == [] then target.tmPods else st.selectedPods;
        ContainersAreRecorded(Ephemeral.STRESS_PREFIX, name, names, r.pods, now, e);
      }
    case _ =>
  }

  lemma SettledDriverIsSpent(spec: RunSpec, run: Run, step: InjectStep, count: nat, now: int, e: Env)
    requires run.status.phase == PhaseInjecting && run.status.injectedPods == []
    requires step.status.phase == PhaseInjecting && step.status.injectedPods == []
    ensures Spent(AfterDriver(spec, run, step, count, now, e).status) <==> PatchesSettle(spec, run, step.outcome, e)
  {
  }

  /** A reconcile that injects leaves a run that cannot inject again exactly when the patches settle it. */
  lemma InjectionIsTheLastIff(w: World, n: string, e: Env)
    requires Injects(w, Reconcile(n, e), n)
    ensures e.target.Some?
    ensures Spent(Reconciled(w, n, e).runs[n].status) <==>
              PatchesSettle(Defaulted(w.runs[n].spec), w.runs[n], DriverStep(w, n, e).outcome, e)
  {
    InjectsOnlyWhenCleared(w, n, e);
    var run, spec, target := w.runs[n], Defaulted(w.runs[n].spec), e.target.value;
    var step := DriverStep(w, n, e);
    InjectKeepsTheRest(n, spec, Cleared(run.status, target), target, w.resources, w.clock, e);
    assert Step(w, n, e) == Local(AfterDriver(spec, run, step, |target.tmPods|, w.clock, e), step.resources);
    SettledDriverIsSpent(spec, run, step, |target.tmPods|, w.clock, e);
  }

  /** For that the first patch has to fail, or a later one when the target has no TaskManager. */
  lemma LossNeedsAFailedPatch(w: World, n: string, e: Env)
    requires LosesInjection(w, Reconcile(n, e), n)
    ensures !e.patchOk(0) || (e.target.value.tmPods == [] && (!e.patchOk(1) || !e.patchOk(2)))
  {
    InjectsOnlyWhenCleared(w, n, e);
    var run, spec, target := w.runs[n], Defaulted(w.runs[n].spec), e.target.value;
    var step := DriverStep(w, n, e);
    assert Step(w, n, e) == Local(AfterDriver(spec, run, step, |target.tmPods|, w.clock, e), step.resources);
    InjectKeepsTheRest(n, spec, Cleared(run.status, target), target, w.resources, w.clock, e);
    if step.outcome.Injected? && target.tmPods != [] {
      InjectionsAreNamed(n, spec, Cleared(run.status, target), target, w.resources, w.clock, e);
    }
  }

  lemma SpentStaysSpent(w: World, ev: Event, n: string)
    requires n in w.runs && Spent(w.runs[n].status) && !(ev.Vanish? && ev.name == n)
    ensures n in Next(w, ev).runs && Spent(Next(w, ev).runs[n].status)
    ensures !Injects(w, ev, n)
  {
    NextNeverGoesBack(w, ev, n);
    if w.runs[n].status.injectedPods != [] {
      NextKeepsInjectedPods(w, ev, n);
    }
    if ReconcilesRun(w, ev, n) {
      InjectsOnlyWhenCleared(w, n, ev.e);
    }
  }

  /******* Whole runs *******/

  /**
   In any execution a run starts chaos at most once more than it loses an injection, and exactly as often while
   it may still inject: a first patch that fails after the driver has run makes the next reconcile inject again.
   */
  lemma {:induction false} InjectionsAreBounded(w: World, evs: seq<Event>, n: string)
    requires n in w.runs && NotVanished(evs, n)
    ensures n in Exec(w, evs).runs
    ensures CountLost(w, evs, n) <= CountInjections(w, evs, n) <= CountLost(w, evs, n) + 1
    ensures !Spent(Exec(w, evs).runs[n].status) ==> CountInjections(w, evs, n) == CountLost(w, evs, n)
  {
    if evs != [] {
      var before, ev := Exec(w, evs[..|evs| - 1]), evs[|evs| - 1];
      InjectionsAreBounded(w, evs[..|evs| - 1], n);
      NextNeverGoesBack(before, ev, n);
      if Spent(before.runs[n].status) {
        SpentStaysSpent(before, ev, n);
      } else if Injects(before, ev, n) {
        InjectionIsTheLastIff(before, n, ev.e);
      }
    }
  }
}
