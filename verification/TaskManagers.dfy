/** The minimum number of TaskManagers: checker arithmetic, selection and deletion taken together. */
module TaskManagers {
  import opened Wrappers
  import opened ChaosApi
  import opened Cluster
  import opened Lifecycle
  import opened PodKill
  import opened Safety
  import opened Execution
  import opened Invariants
  import opened Guarantees

  /** The pods of a target that exist in the cluster. */
  function Remaining(target: ResolvedTarget, r: Resources): set<string> {
    Elements(target.tmPods) * r.pods.Keys
  }

  lemma RandomKillLeavesEnough(spec: RunSpec, st: Status, target: ResolvedTarget, r: Resources, e: Env)
    requires spec.scenario.selection.mode != Explicit && spec.scenario.selection.count >= 1
    requires spec.safety.minRemaining.Some? && spec.safety.minRemaining.value >= 0
    requires EnoughTaskManagers(spec.scenario.selection, spec.safety.minRemaining, |target.tmPods|)
    requires NoDuplicates(target.tmPods) && Elements(target.tmPods) <= r.pods.Keys
    ensures |Remaining(target, InjectPodKill(spec, st, target, r, e).resources)| >= spec.safety.minRemaining.value
  {
    var count := spec.scenario.selection.count;
    WrapNeverGains(|target.tmPods|, count);
    RandomSelectionIsFair(target.tmPods, count, e.swaps);
    var selected := RandomSelection(target.tmPods, count, e.swaps);
    DistinctElements(selected);
    assert Elements(selected) <= Elements(target.tmPods);
    SurvivorsAreCounted(r.pods, target.tmPods, selected, e.deleteFault);
  }

  /**
   A random pod kill never takes a target below its minimum: whatever the shuffle picks and however many
   of the deletions fail, a reconcile that touches any pod leaves at least that many of the resolved pods.
   */
  lemma MinimumTaskManagersRemain(w: World, n: string, e: Env)
    requires Possible(w, Reconcile(n, e)) && e.target.Some?
    requires var s := Defaulted(w.runs[n].spec);
             && s.scenario.kind == TaskManagerPodKill && s.scenario.selection.mode != Explicit
             && s.scenario.selection.count >= 1 && s.safety.minRemaining.GetOr(1) >= 0
    requires Elements(e.target.value.tmPods) <= w.resources.pods.Keys
    ensures var w' := Reconciled(w, n, e);
            w'.resources.pods != w.resources.pods ==>
              |Remaining(e.target.value, w'.resources)| >= Defaulted(w.runs[n].spec).safety.minRemaining.GetOr(1)
  {
    if Reconciled(w, n, e).resources.pods != w.resources.pods {
      InjectsOnlyWhenCleared(w, n, e);
      var spec, run := Defaulted(w.runs[n].spec), w.runs[n];
      RandomKillLeavesEnough(spec, Cleared(run.status, e.target.value), e.target.value, w.resources, e);
    }
  }

  /**
   In Explicit mode the check still reads the count, not the list of names, so the minimum is kept exactly
   when the list itself is short enough.
   */
  lemma ExplicitKillKeepsMinimumIffListIsShort(
      spec: RunSpec, st: Status, target: ResolvedTarget, r: Resources, e: Env, minimum: nat)
    requires spec.scenario.selection.mode == Explicit
    requires forall p <- spec.scenario.selection.podNames :: p in target.tmPods
    requires NoDuplicates(target.tmPods) && Elements(target.tmPods) <= r.pods.Keys
    requires InjectPodKill(spec, st, target, r, e).outcome.Injected?
    ensures |Remaining(target, InjectPodKill(spec, st, target, r, e).resources)| >= minimum
            <==> |Elements(spec.scenario.selection.podNames)| <= |target.tmPods| - minimum
  {
    assert Elements(spec.scenario.selection.podNames) <= Elements(target.tmPods);
    SurvivorsAreCounted(r.pods, target.tmPods, spec.scenario.selection.podNames, e.deleteFault);
  }

  /** A reconcile that is about to kill the two named pods of a target of two, with a minimum of one. */
  predicate AboutToKillBoth(w: World, n: string, e: Env) {
    && Possible(w, Reconcile(n, e))
    && w.runs[n].status.phase == PhaseInjecting && w.runs[n].status.injectedPods == []
    && var spec := Defaulted(w.runs[n].spec);
       && Live(spec, w.runs[n]) && !spec.safety.dryRun
       && spec.scenario.kind == TaskManagerPodKill
       && spec.scenario.selection == Selection(Explicit, 0, ["tm-0", "tm-1"])
       && spec.safety.minRemaining == Some(1)
       && w.namespace !in DENIED_NAMESPACES && e.listRunsOk
       && e.target.Some? && e.target.value.tmPods == ["tm-0", "tm-1"] && !e.target.value.shared
       && |ActivePeers(w.runs, n, e.target.value.logicalName)| < spec.safety.maxConcurrent
  }

  /** Both pods pass every check, because it counts one, and when the deletions succeed both go. */
  lemma ExplicitCanKillEveryPod(w: World, n: string, e: Env)
    requires AboutToKillBoth(w, n, e) && forall p :: e.deleteFault(p) == NoFault
    ensures PassesChecks(w.namespace, n, Defaulted(w.runs[n].spec), w.runs, e)
    ensures Reconciled(w, n, e).resources.pods == w.resources.pods - {"tm-0", "tm-1"}
    ensures Remaining(e.target.value, Reconciled(w, n, e).resources) == {}
  {
    var spec, names, r := Defaulted(w.runs[n].spec), ["tm-0", "tm-1"], w.resources;
    var step := InjectPodKill(spec, Cleared(w.runs[n].status, e.target.value), e.target.value, r, e);
    assert EnoughTaskManagers(spec.scenario.selection, Some(1), 2);
    BothAreDeleted(r.pods, names, e.deleteFault);
    assert Step(w, n, e).resources == step.resources;
    assert Elements(names) == {"tm-0", "tm-1"};
  }

  lemma BothAreDeleted(pods: map<string, Pod>, names: seq<string>, fault: string -> Fault)
    requires |names| == 2 && forall p :: fault(p) == NoFault
    ensures Deleted(pods, names, fault).ok && Deleted(pods, names, fault).pods == pods - {names[0], names[1]}
  {
    var last := [names[1]];
    assert names[1..] == last && last[1..] == [];
    var none := pods - {names[0]} - {names[1]};
    assert Deleted(none, last[1..], fault) == Deletion(none, [], true);
    var rest := Deleted(pods - {names[0]}, last, fault);
    assert rest.ok && rest.pods == none;
    assert Deleted(pods, names, fault).ok;
    assert Deleted(pods, names, fault).pods == rest.pods;
  }
}
