/** What a successful injection has done to the pods: how many are killed, and which containers are started. */
module Deeds {
  import opened Wrappers
  import opened ChaosApi
  import opened Cluster
  import opened Drivers
  import opened Lifecycle
  import opened Execution
  import opened Invariants
  import opened PodKill
  import opened Injections
  import opened Outcomes
  import Containers
  import Ephemeral
  import Settlement
  import Bookkeeping

  /******* Pod kill *******/

  /** The number of pods a Random selection asks for, as far as there are pods. */
  function Asked(selection: Selection, target: ResolvedTarget): nat {
    var count := if selection.count < 1 then 1 else selection.count;
    if count < |target.tmPods| then count else |target.tmPods|
  }

  lemma DeletedPodsAreGone(pods: map<string, Pod>, selected: seq<string>, fault: string -> Fault)
    requires Deleted(pods, selected, fault).ok
    ensures Deleted(pods, selected, fault).injected == selected
    ensures Deleted(pods, selected, fault).pods == pods - Elements(selected)
  {
    DeletesAPrefix(pods, selected, fault);
  }

  /** A successful kill deletes exactly the pods it names: in Random mode as many as asked, in Explicit mode the list. */
  lemma KillDeletesTheSelection(spec: RunSpec, st: Status, target: ResolvedTarget, r: Resources, e: Env)
    requires InjectPodKill(spec, st, target, r, e).outcome.Injected? && NoDuplicates(target.tmPods)
    ensures var step, selection := InjectPodKill(spec, st, target, r, e), spec.scenario.selection;
            var killed := step.outcome.injected;
            && step.outcome.selected == killed && step.status == st
            && step.resources == r.(pods := r.pods - Elements(killed))
            && (forall p <- killed :: p in target.tmPods)
            && if selection.mode == Explicit then killed == selection.podNames
               else |killed| == Asked(selection, target) && NoDuplicates(killed)
  {
    var selection := spec.scenario.selection;
    var selected := Selected(selection, target.tmPods, e.swaps).value;
    DeletedPodsAreGone(r.pods, selected, e.deleteFault);
    if selection.mode != Explicit {
      RandomSelectionIsFair(target.tmPods, if selection.count < 1 then 1 else selection.count, e.swaps);
    }
  }

  /** Without API errors only an Explicit list with an unknown name fails. */
  lemma KillSucceedsIff(spec: RunSpec, st: Status, target: ResolvedTarget, r: Resources, e: Env)
    requires forall p :: e.deleteFault(p) == NoFault
    ensures InjectPodKill(spec, st, target, r, e).outcome.Injected? <==>
              (spec.scenario.selection.mode == Explicit ==>
                 forall p <- spec.scenario.selection.podNames :: p in target.tmPods)
  {
    var selected := Selected(spec.scenario.selection, target.tmPods, e.swaps);
    if selected.Some? {
      DeletesAPrefix(r.pods, selected.value, e.deleteFault);
    }
  }

  /**
   A pod kill that calls its driver, with no deletion failing and the first patch stored: the pods that are gone
   are those on record, and there are as many as asked for.
   */
  lemma PodKillIsServed(w: World, n: string, e: Env)
    requires CallsDriver(w, n, e) && e.patchOk(0) && forall p :: e.deleteFault(p) == NoFault
    requires Defaulted(w.runs[n].spec).scenario.kind == TaskManagerPodKill
    requires Defaulted(w.runs[n].spec).scenario.selection.mode != Explicit
    ensures var spec, w' := Defaulted(w.runs[n].spec), Reconciled(w, n, e); var killed := w'.runs[n].status.injectedPods;
            && |killed| == Asked(spec.scenario.selection, e.target.value) && NoDuplicates(killed)
            && (forall p <- killed :: p in e.target.value.tmPods)
            && w'.resources == w.resources.(pods := w.resources.pods - Elements(killed))
  {
    var run, spec, target := w.runs[n], Defaulted(w.runs[n].spec), e.target.value;
    var st := Cleared(run.status, target);
    assert DriverStep(w, n, e) == InjectPodKill(spec, st, target, w.resources, e);
    KillSucceedsIff(spec, st, target, w.resources, e);
    KillDeletesTheSelection(spec, st, target, w.resources, e);
    InjectingIsServed(w, n, e);
  }

  /******* Containers *******/

  /** One fresh container and one record for each of the pods, named after the run and its position. */
  predicate ReachesEveryPod(
      prefix: string, run: string, names: seq<string>, recs: seq<ContainerRecord>, pods: map<string, Pod>, now: int)
  {
    && |recs| == |names|
    && forall k :: 0 <= k < |names| ==>
         && recs[k] == ContainerRecord(names[k], Ephemeral.ContainerName(prefix, run, k), Some(Seconds(now)), false)
         && Containers.Has(pods, names[k], Ephemeral.ContainerName(prefix, run, k))
  }

  lemma StartReachesEveryPod(
      prefix: string, run: string, names: seq<string>, pods: map<string, Pod>, now: int, e: Env)
    requires Containers.Started(prefix, run, names, 0, pods, now, e).ok
    ensures var s := Containers.Started(prefix, run, names, 0, pods, now, e);
            ReachesEveryPod(prefix, run, names, s.records, s.pods, now) && Containers.PodsOf(s.records) == names
  {
    var s := Containers.Started(prefix, run, names, 0, pods, now, e);
    Containers.StartingOnlyAdds(prefix, run, names, 0, pods, now, e);
    forall k | 0 <= k < |names|
      ensures s.records[k] == ContainerRecord(names[k], Ephemeral.ContainerName(prefix, run, k), Some(Seconds(now)), false)
      ensures Containers.Has(s.pods, names[k], Ephemeral.ContainerName(prefix, run, k))
    {
      assert s.records[k] == ContainerRecord(names[0 + k], Ephemeral.ContainerName(prefix, run, 0 + k), Some(Stamp(now)), false);
      Containers.StartedIsThere(prefix, run, names, 0, pods, now, e, k);
    }
  }

  /** The pods a container scenario is for: those selected before, if any, in a resource exhaustion. */
  function ChaosPods(kind: ScenarioType, st: Status, target: ResolvedTarget): seq<string> {
    if kind == ResourceExhaustion && st.selectedPods != [] then st.selectedPods else target.tmPods
  }

  function ChaosPrefix(kind: ScenarioType): string {
    if kind == NetworkChaos then "fchaos-tc-" else "fchaos-stress-"
  }

  lemma ChaosStartsEverywhere(
      name: string, spec: RunSpec, st: Status, target: ResolvedTarget, r: Resources, now: int, e: Env)
    requires UsesContainers(spec.scenario.kind) && Settlement.RecordsOf(spec.scenario.kind, st) == []
    requires Inject(name, spec, st, target, r, now, e).outcome.Injected?
    ensures var kind, step := spec.scenario.kind, Inject(name, spec, st, target, r, now, e);
            var names := ChaosPods(kind, st, target);
            && step.outcome.injected == names && step.outcome.selected == names
            && ReachesEveryPod(ChaosPrefix(kind), name, names, Settlement.RecordsOf(kind, step.status), step.resources.pods, now)
  {
    var kind := spec.scenario.kind;
    StartReachesEveryPod(ChaosPrefix(kind), name, ChaosPods(kind, st, target), r.pods, now, e);
  }

  /**
   A container scenario that calls its driver with nothing on record, succeeds and stores it: there is one container
   and one record for every pod of the target, or of the earlier selection.
   */
  lemma ChaosIsServed(w: World, n: string, e: Env)
    requires CallsDriver(w, n, e) && e.patchOk(0) && UsesContainers(Defaulted(w.runs[n].spec).scenario.kind)
    requires Settlement.RecordsOf(Defaulted(w.runs[n].spec).scenario.kind, w.runs[n].status) == []
    requires DriverStep(w, n, e).outcome.Injected?
    ensures var kind, w' := Defaulted(w.runs[n].spec).scenario.kind, Reconciled(w, n, e);
            var names, st' := ChaosPods(kind, w.runs[n].status, e.target.value), w'.runs[n].status;
            && st'.injectedPods == names && st'.selectedPods == names
            && ReachesEveryPod(ChaosPrefix(kind), n, names, Settlement.RecordsOf(kind, st'), w'.resources.pods, w.clock)
  {
    var run, spec, target := w.runs[n], Defaulted(w.runs[n].spec), e.target.value;
    var step := DriverStep(w, n, e);
    ChaosStartsEverywhere(n, spec, Cleared(run.status, target), target, w.resources, w.clock, e);
    InjectingIsServed(w, n, e);
    Bookkeeping.FirstPatchStoresRecords(spec, run, step, |target.tmPods|, w.clock, e);
    assert Lifecycle.Step(w, n, e) == Local(AfterDriver(spec, run, step, |target.tmPods|, w.clock, e), step.resources);
  }
}
