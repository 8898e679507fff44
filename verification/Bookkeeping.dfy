/**
 What the status and the finalizer know of the chaos a run has started: which containers are on record, and
 what a deletion leaves behind.
 */
module Bookkeeping {
  import opened Wrappers
  import opened ChaosApi
  import opened Cluster
  import opened Drivers
  import opened Lifecycle
  import opened Execution
  import opened Invariants
  import opened Guarantees
  import opened Settlement
  import opened Containers
  import Ephemeral
  import Partition

  /******* Started containers *******/

  /** The update that stops the injection of this reconcile only seems to fail. */
  predicate StopsUnsureFor(spec: RunSpec, name: string, st: Status, target: ResolvedTarget, w: World, e: Env) {
    if spec.scenario.kind == NetworkChaos then
      StopsUnsure(Ephemeral.TC_PREFIX, name, target.tmPods, 0, w.resources.pods, w.clock, e)
    else
      var names := if st.selectedPods == [] then target.tmPods else st.selectedPods;
      StopsUnsure(Ephemeral.STRESS_PREFIX, name, names, 0, w.resources.pods, w.clock, e)
  }

  /** A start that changes anything makes a container appear. */
  lemma SomethingAppears(
      prefix: string, run: string, names: seq<string>, pods: map<string, Pod>, now: int, e: Env)
    requires Started(prefix, run, names, 0, pods, now, e).pods != pods
    ensures names != []
    ensures Appears(pods, Started(prefix, run, names, 0, pods, now, e).pods, names[0], Ephemeral.ContainerName(prefix, run, 0))
  {
    var container, f := Ephemeral.ContainerName(prefix, run, 0), e.updateFault(names[0]);
    var (pods', ok) := AddContainer(pods, names[0], container, f);
    AddedContainerAppears(pods, names[0], container, f);
    assert Appears(pods, pods', names[0], container);
    if ok {
      StartingKeepsContainers(prefix, run, names, 1, pods', now, e);
      HasIsKept(pods', Started(prefix, run, names, 0, pods, now, e).pods, names[0], container);
    }
  }

  lemma NothingOnRecord(before: map<string, Pod>, after: map<string, Pod>, pod: string, container: string)
    requires Appears(before, after, pod, container)
    ensures !AllOnRecord(before, after, [])
  {
  }

  /** The records the driver has made, against the containers it has started. */
  lemma DriverRecordsIff(
      name: string, spec: RunSpec, st: Status, target: ResolvedTarget, w: World, e: Env)
    requires UsesContainers(spec.scenario.kind)
    requires Inject(name, spec, st, target, w.resources, w.clock, e).resources.pods != w.resources.pods
    ensures var s, kind := Inject(name, spec, st, target, w.resources, w.clock, e), spec.scenario.kind;
            && RecordsOf(kind, st) == []
            && !AllOnRecord(w.resources.pods, s.resources.pods, [])
            && (AllOnRecord(w.resources.pods, s.resources.pods, RecordsOf(kind, s.status))
                <==> !StopsUnsureFor(spec, name, st, target, w, e))
  {
    var pods, kind := w.resources.pods, spec.scenario.kind;
    var prefix := if kind == NetworkChaos then Ephemeral.TC_PREFIX else Ephemeral.STRESS_PREFIX;
    var names := if kind == NetworkChaos || st.selectedPods == [] then target.tmPods else st.selectedPods;
    StartedAreOnRecordIff(prefix, name, names, 0, pods, w.clock, e);
    SomethingAppears(prefix, name, names, pods, w.clock, e);
    NothingOnRecord(pods, Started(prefix, name, names, 0, pods, w.clock, e).pods, names[0],
                    Ephemeral.ContainerName(prefix, name, 0));
  }

  lemma FirstPatchStoresRecords(spec: RunSpec, run: Run, step: InjectStep, count: nat, now: int, e: Env)
    requires !step.outcome.InjectPanicked?
    ensures SameRecords(if e.patchOk(0) then step.status else run.status,
                        AfterDriver(spec, run, step, count, now, e).status)
  {
  }

  /**
   After a reconcile that starts containers, all of them are on record exactly when the first patch succeeds and
   no update that took effect was reported as failed.
   */
  lemma StartsAreOnRecordIff(w: World, n: string, e: Env)
    requires Possible(w, Reconcile(n, e)) && UsesContainers(Defaulted(w.runs[n].spec).scenario.kind)
    requires Reconciled(w, n, e).resources.pods != w.resources.pods
    ensures e.target.Some?
    ensures var run, spec, w' := w.runs[n], Defaulted(w.runs[n].spec), Reconciled(w, n, e);
            AllOnRecord(w.resources.pods, w'.resources.pods, RecordsOf(spec.scenario.kind, w'.runs[n].status)) <==>
              e.patchOk(0) && !StopsUnsureFor(spec, n, run.status, e.target.value, w, e)
  {
    InjectsOnlyWhenCleared(w, n, e);
    var run, spec, target := w.runs[n], Defaulted(w.runs[n].spec), e.target.value;
    var st := Cleared(run.status, target);
    var step := Inject(n, spec, st, target, w.resources, w.clock, e);
    assert Lifecycle.Step(w, n, e) == Local(AfterDriver(spec, run, step, |target.tmPods|, w.clock, e), step.resources);
    InjectKeepsTheRest(n, spec, st, target, w.resources, w.clock, e);
    DriverRecordsIff(n, spec, st, target, w, e);
    FirstPatchStoresRecords(spec, run, step, |target.tmPods|, w.clock, e);
  }

  /** A record stays one, for the same pod and container. */
  lemma MarksKeepRecords(a: seq<ContainerRecord>, b: seq<ContainerRecord>, pod: string, container: string)
    requires OnlyMoreMarks(a, b) && OnRecord(a, pod, container)
    ensures OnRecord(b, pod, container)
  {
    var i :| 0 <= i < |a| && a[i].pod == pod && a[i].container == container;
    assert b[i] == a[i].(cleanedUp := b[i].cleanedUp);
  }

  /** The container is on record, and marked. */
  predicate IsSettled(recs: seq<ContainerRecord>, pod: string, container: string) {
    exists i :: 0 <= i < |recs| && recs[i].pod == pod && recs[i].container == container && recs[i].cleanedUp
  }

  lemma MarkedIfAllAre(recs: seq<ContainerRecord>, pod: string, container: string)
    requires OnRecord(recs, pod, container) && AllCleanedUp(recs)
    ensures IsSettled(recs, pod, container)
  {
  }

  /** This reconcile starts the container and keeps complete books. */
  predicate StartsOnRecord(w: World, n: string, e: Env, pod: string, container: string) {
    && Possible(w, Reconcile(n, e)) && UsesContainers(Defaulted(w.runs[n].spec).scenario.kind)
    && Appears(w.resources.pods, Reconciled(w, n, e).resources.pods, pod, container)
    && e.target.Some? && e.patchOk(0)
    && !StopsUnsureFor(Defaulted(w.runs[n].spec), n, w.runs[n].status, e.target.value, w, e)
  }

  lemma {:induction false} StartedContainersStayOnRecord(
      w: World, n: string, e: Env, later: seq<Event>, pod: string, container: string)
    requires StartsOnRecord(w, n, e, pod, container) && NotVanished(later, n)
    ensures var w' := Exec(Reconciled(w, n, e), later);
            n in w'.runs
            && OnRecord(RecordsOf(Defaulted(w.runs[n].spec).scenario.kind, w'.runs[n].status), pod, container)
  {
    var kind, next := Defaulted(w.runs[n].spec).scenario.kind, Reconciled(w, n, e);
    StartsAreOnRecordIff(w, n, e);
    assert OnRecord(RecordsOf(kind, next.runs[n].status), pod, container);
    MarksAreNeverTakenBack(next, later, n);
    MarksKeepRecords(RecordsOf(kind, next.runs[n].status), RecordsOf(kind, Exec(next, later).runs[n].status),
                     pod, container);
  }

  /**
   In every execution, a container started by a reconcile that keeps complete books is on record and settled when
   the run ends Completed or Aborted, whatever happens in between.
   */
  lemma {:induction false} StartedContainersAreSettled(
      w: World, past: seq<Event>, n: string, e: Env, later: seq<Event>, pod: string, container: string)
    requires Initial(w) && StartsOnRecord(Exec(w, past), n, e, pod, container) && NotVanished(later, n)
    requires var last := Exec(w, past + [Reconcile(n, e)] + later);
             n in last.runs && last.runs[n].status.phase in {PhaseCompleted, PhaseAborted}
    ensures var last := Exec(w, past + [Reconcile(n, e)] + later);
            IsSettled(RecordsOf(Defaulted(Exec(w, past).runs[n].spec).scenario.kind, last.runs[n].status), pod, container)
  {
    var evs := past + [Reconcile(n, e)] + later;
    ExecOfAppended(w, past, Reconcile(n, e));
    ExecOfConcatenation(w, past + [Reconcile(n, e)], later);
    StartedContainersStayOnRecord(Exec(w, past), n, e, later, pod, container);
    EndedRunsAreSettled(w, evs, n);
    MarkedIfAllAre(RecordsOf(Defaulted(Exec(w, past).runs[n].spec).scenario.kind, Exec(w, evs).runs[n].status),
                   pod, container);
  }

  /******* Deletion *******/

  predicate Readable(recs: seq<ContainerRecord>, e: Env) {
    forall i :: 0 <= i < |recs| ==> recs[i].cleanedUp || e.getOk(recs[i].pod)
  }

  /** Every call of the driver's Cleanup is answered without an error. */
  predicate CleanupAnswers(spec: RunSpec, st: Status, e: Env) {
    match spec.scenario.kind
    case NetworkPartition => e.listPoliciesOk && forall p <- e.policyOrder :: e.deleteFault(p) == NoFault
    case NetworkChaos => Readable(st.networkInjections, e)
    case ResourceExhaustion => Readable(st.exhaustionInjections, e)
    case _ => true
  }

  lemma CleanUpOkIff(spec: RunSpec, st: Status, r: Resources, now: int, e: Env)
    ensures CleanUp(spec, st, r, now, e).ok <==> CleanupAnswers(spec, st, e)
  {
    match spec.scenario.kind
    case NetworkPartition => Partition.DeletesWithoutErrorIff(r.policies, e.policyOrder, e.deleteFault);
    case NetworkChaos =>
      SettlesWithoutErrorIff(st.networkInjections, r.pods, NetworkDuration(spec.scenario.network), now, e.getOk);
    case ResourceExhaustion =>
      SettlesWithoutErrorIff(st.exhaustionInjections, r.pods, ExhaustionDuration(spec.scenario.exhaustion), now, e.getOk);
    case _ =>
  }

  /** The chaos on record is over. */
  predicate Over(recs: seq<ContainerRecord>, pods: map<string, Pod>, duration: int, now: int) {
    forall i :: 0 <= i < |recs| ==> recs[i].cleanedUp || Gone(recs[i], pods, duration, now)
  }

  predicate ChaosIsOver(spec: RunSpec, st: Status, r: Resources, now: int) {
    match spec.scenario.kind
    case NetworkChaos => Over(st.networkInjections, r.pods, NetworkDuration(spec.scenario.network), now)
    case ResourceExhaustion => Over(st.exhaustionInjections, r.pods, ExhaustionDuration(spec.scenario.exhaustion), now)
    case _ => true
  }

  /** A Cleanup without an error has cleaned up exactly when the chaos is over; a partition is over with it. */
  lemma CleanedUpIffOver(spec: RunSpec, st: Status, r: Resources, now: int, e: Env)
    requires ScenarioInv(spec, st) && CleanupAnswers(spec, st, e)
    ensures CleanupComplete(CleanUp(spec, st, r, now, e).status) <==> ChaosIsOver(spec, st, r, now)
  {
    CleanUpOkIff(spec, st, r, now, e);
    SettlingIsSound(st.networkInjections, r.pods, NetworkDuration(spec.scenario.network), now, e.getOk);
    SettlingIsSound(st.exhaustionInjections, r.pods, ExhaustionDuration(spec.scenario.exhaustion), now, e.getOk);
  }

  /** A reconcile of a run that is being deleted and has not ended. */
  predicate Deletes(w: World, n: string, e: Env) {
    && Possible(w, Reconcile(n, e))
    && w.runs[n].deleting && w.runs[n].finalizer && !IsTerminal(w.runs[n].status.phase)
  }

  /**
   In every execution a deletion drops the finalizer exactly when Cleanup meets no error and the patch succeeds.
   A partition has no policy left then. A container run is cleaned up exactly when its chaos is over, which the
   deletion does not wait for.
   */
  lemma {:induction false} DeletionDropsFinalizerIff(w: World, evs: seq<Event>, n: string, e: Env)
    requires Initial(w) && Deletes(Exec(w, evs), n, e)
    ensures var w' := Exec(w, evs);
            var run, spec, after := w'.runs[n], Defaulted(w'.runs[n].spec), Reconciled(w', n, e);
            && after.runs[n].status == run.status
            && (!after.runs[n].finalizer <==> CleanupAnswers(spec, run.status, e) && e.patchOk(0))
            && (!after.runs[n].finalizer ==>
                  && Labelled(after.resources.policies, n) == {}
                  && (CleanupComplete(CleanUp(spec, run.status, w'.resources, w'.clock, e).status)
                      <==> ChaosIsOver(spec, run.status, w'.resources, w'.clock)))
  {
    var w' := Exec(w, evs);
    var run, spec := w'.runs[n], Defaulted(w'.runs[n].spec);
    EveryReachableWorldIsSound(w, evs);
    assert RunInv(run) && PoliciesInv(w', n);
    CleanUpOkIff(spec, run.status, w'.resources, w'.clock, e);
    CleanUpKeepsTheRest(n, spec, run.status, w'.resources, w'.clock, e);
    if CleanupAnswers(spec, run.status, e) {
      CleanedUpIffOver(spec, run.status, w'.resources, w'.clock, e);
    }
    DeletedPartitionIsClean(w', n, e);
  }

  lemma DeletedPartitionIsClean(w: World, n: string, e: Env)
    requires Deletes(w, n, e) && PoliciesInv(w, n)
    ensures !Reconciled(w, n, e).runs[n].finalizer ==> Labelled(Reconciled(w, n, e).resources.policies, n) == {}
  {
    var spec, run := Defaulted(w.runs[n].spec), w.runs[n];
    CleanUpKeepsTheRest(n, spec, run.status, w.resources, w.clock, e);
    var after := CleanUp(spec, run.status, w.resources, w.clock, e).resources.policies;
    assert Labelled(after, n) <= Labelled(w.resources.policies, n);
  }
}
