/** Executions from an empty namespace that end runs, with verdicts and left-overs the documentation does not expect. */
module Endings {
  import opened Wrappers
  import opened ChaosApi
  import opened NetworkPolicies
  import opened Cluster
  import opened Lifecycle
  import opened Execution
  import opened Invariants
  import opened Guarantees
  import opened Witnesses
  import Drivers
  import Partition
  import Containers
  import Ephemeral
  import Observers
  import Bookkeeping
  import Verdicts

  /******* A partition that is held while the workload is healthy *******/

  /** The replacement of the only TaskManager is up when the partition has been held for its duration. */
  const ELAPSED: Event := Reconcile(NAME, Answers(["tm-1"], ORDER, 3))

  predicate Held(w: World) {
    && Inv(w) && Partitioned(w, PhaseObserving) && w.runs[NAME].spec == PARTITION_SPEC
    && w.runs[NAME].status.observingStartedAt == Some(0) && w.runs[NAME].status.injectedPods == ["tm-0"]
  }

  lemma ReplacementArrives(w: World)
    requires Held(w)
    ensures var w' := Next(w, ChangePods(map["tm-1" := POD]));
            Held(w') && w'.clock == w.clock && w'.resources.pods == map["tm-1" := POD]
  {
    NextKeepsInv(w, ChangePods(map["tm-1" := POD]));
  }

  lemma MinutePasses(w: World)
    requires Held(w)
    ensures var w' := Next(w, Tick(MINUTE));
            Held(w') && w'.clock == w.clock + MINUTE && w'.resources.pods == w.resources.pods
  {
    NextKeepsInv(w, Tick(MINUTE));
  }

  /** The observer, if it were asked, would find every replacement ready. */
  predicate ReadyIfAsked(w: World)
    requires NAME in w.runs
  {
    var poll := PollOf(Defaulted(PARTITION_SPEC), w.runs[NAME].status, w.resources, ELAPSED.e);
    poll.Ok? && poll.value.ready
  }

  lemma WorkloadIsHealthy(w: World)
    requires Held(w) && w.resources.pods == map["tm-1" := POD]
    ensures ReadyIfAsked(w)
  {
    var spec, st := Defaulted(PARTITION_SPEC), w.runs[NAME].status;
    assert "tm-0"[3] != "tm-1"[3];
    assert Observers.Disjoint(["tm-0"], ["tm-1"]);
    Observers.ReadyIffRecovered(
      spec.observe, st.injectedPods, st.observation, ELAPSED.e.target, w.resources.pods, ELAPSED.e);
  }

  predicate ToBeClosed(w: World, verdict: Verdict) {
    && NAME in w.runs && w.runs[NAME].status.verdict == verdict
    && !HasConditionTrue(w.runs[NAME].status, AbortRequested)
  }

  predicate Ended(w: World, verdict: Verdict) {
    && NAME in w.runs && w.runs[NAME].spec.observe.enabled && !w.runs[NAME].spec.safety.dryRun
    && w.runs[NAME].status.phase == PhaseCompleted && w.runs[NAME].status.verdict == verdict
  }

  lemma DurationEnds(st: Status, poll: Observers.Poll)
    requires st.observingStartedAt == Some(0) && !st.replacementObserved
    ensures AfterObserving(Defaulted(PARTITION_SPEC), st, poll, MINUTE)
         == st.(verdict := VerdictInconclusive, phase := PhaseCleaningUp)
  {
  }

  lemma HeldPartitionCleansUp(w: World)
    requires Held(w) && w.clock == MINUTE
    ensures var w' := Next(w, ELAPSED);
            Inv(w') && Partitioned(w', PhaseCleaningUp) && ToBeClosed(w', VerdictInconclusive) && w'.clock == MINUTE
  {
    var run, spec := w.runs[NAME], Defaulted(PARTITION_SPEC);
    OrderEnumerates(w, PhaseObserving);
    assert RunInv(run);
    DurationEnds(run.status, PollOf(spec, run.status, w.resources, ELAPSED.e));
    assert Lifecycle.Step(w, NAME, ELAPSED.e) == Local(Observing(spec, run, w.resources, MINUTE, ELAPSED.e), w.resources);
    NextKeepsInv(w, ELAPSED);
  }

  /** A cleanup without an error before the deadline closes the run with its stored verdict. */
  lemma CleanupCloses(spec: RunSpec, run: Run, r: Resources, now: int, e: Env)
    requires !CleanupExpired(spec, run.status, now) && run.status.verdict != NoVerdict
    requires !HasConditionTrue(run.status, AbortRequested) && e.patchOk(0) && e.patchOk(1)
    requires var c := CleanUp(spec, run.status, r, now, e);
             c.ok && CleanupComplete(c.status) && KeepsTheRest(run.status, c.status)
    ensures var l := CleaningUp(spec, run, r, now, e);
            && l.resources == CleanUp(spec, run.status, r, now, e).resources
            && l.run.status.phase == PhaseCompleted && l.run.status.verdict == run.status.verdict && !l.run.finalizer
            && l.run.spec == run.spec
            && l.run.status.exhaustionInjections == CleanUp(spec, run.status, r, now, e).status.exhaustionInjections
  {
  }

  lemma PartitionIsCleanedUp(w: World, spec: RunSpec)
    requires Inv(w) && Partitioned(w, PhaseCleaningUp) && spec == Defaulted(w.runs[NAME].spec)
    ensures var st := w.runs[NAME].status; var c := CleanUp(spec, st, w.resources, w.clock, CLEANUP.e);
            c.ok && CleanupComplete(c.status) && KeepsTheRest(st, c.status) && Labelled(c.resources.policies, NAME) == {}
  {
    OrderEnumerates(w, PhaseCleaningUp);
    assert RunInv(w.runs[NAME]);
    Partition.DeletesWithoutErrorIff(w.resources.policies, ORDER, CLEANUP.e.deleteFault);
    CleanUpKeepsTheRest(NAME, spec, w.runs[NAME].status, w.resources, w.clock, CLEANUP.e);
  }

  lemma CleanPartitionCompletes(w: World)
    requires Inv(w) && Partitioned(w, PhaseCleaningUp) && ToBeClosed(w, VerdictInconclusive) && w.clock == MINUTE
    ensures var w' := Next(w, CLEANUP);
            && Ended(w', VerdictInconclusive) && !w'.runs[NAME].finalizer
            && Labelled(w'.resources.policies, NAME) == {}
  {
    var run, spec := w.runs[NAME], Defaulted(w.runs[NAME].spec);
    OrderEnumerates(w, PhaseCleaningUp);
    PartitionIsCleanedUp(w, spec);
    CleanupCloses(spec, run, w.resources, w.clock, CLEANUP.e);
    assert Lifecycle.Step(w, NAME, CLEANUP.e) == CleaningUp(spec, run, w.resources, w.clock, CLEANUP.e);
  }

  lemma HeldPartitionEnds(w: World)
    requires Held(w) && w.clock == MINUTE && w.resources.pods == map["tm-1" := POD]
    ensures ReadyIfAsked(w)
    ensures var w' := Next(Next(w, ELAPSED), CLEANUP);
            Ended(w', VerdictInconclusive) && Labelled(w'.resources.policies, NAME) == {}
  {
    WorkloadIsHealthy(w);
    HeldPartitionCleansUp(w);
    CleanPartitionCompletes(Next(w, ELAPSED));
  }

  /** The pods are replaced and a minute goes by. */
  lemma PartitionIsHeld(w: World)
    requires Held(w) && w.clock == 0
    ensures var w' := Next(Next(w, ChangePods(map["tm-1" := POD])), Tick(MINUTE));
            Held(w') && w'.clock == MINUTE && w'.resources.pods == map["tm-1" := POD]
  {
    ReplacementArrives(w);
    MinutePasses(Next(w, ChangePods(map["tm-1" := POD])));
  }

  lemma PartitionStartsHeld() returns (evs: seq<Event>)
    ensures Held(Exec(EMPTY, evs)) && Exec(EMPTY, evs).clock == 0
  {
    evs := PartitionIsReachable();
    EveryReachableWorldIsSound(EMPTY, evs);
  }

  /**
   A partition held for its duration next to a recovered workload completes as Inconclusive: the observer is not
   asked, even where it would report that every replacement is ready.
   */
  lemma HealthyPartitionIsInconclusive() returns (evs: seq<Event>, k: nat)
    ensures Initial(EMPTY) && k < |evs| && evs[k] == ELAPSED
    ensures Held(Exec(EMPTY, evs[..k])) && ReadyIfAsked(Exec(EMPTY, evs[..k]))
    ensures Ended(Exec(EMPTY, evs), VerdictInconclusive) && Labelled(Exec(EMPTY, evs).resources.policies, NAME) == {}
  {
    var start := PartitionStartsHeld();
    var w := Exec(EMPTY, start);
    PartitionIsHeld(w);
    HeldPartitionEnds(Next(Next(w, ChangePods(map["tm-1" := POD])), Tick(MINUTE)));
    evs := FourMore(start, ChangePods(map["tm-1" := POD]), Tick(MINUTE), ELAPSED, CLEANUP);
    k := |start| + 2;
  }

  /******* Stress on a workload that does not recover *******/

  const STRESS_SPEC: RunSpec :=
    SpecOf(ScenarioSpec(ResourceExhaustion, Selection(UnsetMode, 0, []), None, Some(ExhaustionSpec(CPU, 0, 0, None))),
           NO_REST)

  const READY_TO_STRESS: Run :=
    Run(STRESS_SPEC, FRESH_STATUS.(startedAt := Some(0), phase := PhaseInjecting), false, false)

  const CONTAINER: string := Ephemeral.ContainerName(Ephemeral.STRESS_PREFIX, NAME, 0)

  function Stressing(pods: map<string, Pod>, pod: string): map<string, Pod>
    requires pod in pods
  {
    pods[pod := pods[pod].(containers := pods[pod].containers + [CONTAINER])]
  }

  /** The run has one record, of a container it started at 0 in that pod, and is in that phase. */
  predicate Stressed(w: World, pod: string, phase: Phase) {
    && w.resources.policies == map[] && NAME in w.runs
    && var run := w.runs[NAME];
       && run.spec == STRESS_SPEC && run.finalizer && run.status.phase == phase
       && run.status.startedAt == Some(0) && run.status.observingStartedAt == Some(0)
       && run.status.exhaustionInjections == [ContainerRecord(pod, CONTAINER, Some(0), false)]
       && run.status.networkInjections == [] && run.status.networkPolicies == []
       && !HasConditionTrue(run.status, AbortRequested)
  }

  lemma StressPassesChecks(w: World, e: Env)
    requires w.namespace == "default" && w.runs.Keys == {NAME}
    requires e.target.Some? && e.target.value.logicalName == "job" && !e.target.value.shared && e.listRunsOk
    ensures PassesChecks(w.namespace, NAME, Defaulted(STRESS_SPEC), w.runs, e)
  {
    NothingElseRuns(w, "job");
  }

  lemma OneContainerStarts(st: Status, target: ResolvedTarget, pods: map<string, Pod>, pod: string, e: Env)
    requires target.tmPods == [pod] && st.selectedPods == [] && st.exhaustionInjections == []
    requires pod in pods && CONTAINER !in pods[pod].containers && e.getOk(pod) && e.updateFault(pod) == NoFault
    ensures var s := Inject(NAME, Defaulted(STRESS_SPEC), st, target, Resources(map[], pods), 0, e);
            && s.outcome.Injected? && s.resources == Resources(map[], Stressing(pods, pod))
            && s.status == st.(exhaustionInjections := [ContainerRecord(pod, CONTAINER, Some(0), false)])
  {
    var names := target.tmPods;
    assert Containers.Started(Ephemeral.STRESS_PREFIX, NAME, names, 1, Stressing(pods, pod), 0, e)
           == Containers.Starting(Stressing(pods, pod), [], true);
    assert [ContainerRecord(pod, CONTAINER, Some(0), false)] + []
           == [ContainerRecord(pod, CONTAINER, Some(0), false)];
  }

  lemma StressStep(pods: map<string, Pod>, pod: string, patches: nat)
    requires pod in pods && CONTAINER !in pods[pod].containers
    ensures var w, e := Holding(READY_TO_STRESS, Resources(map[], pods), 0), Answers([pod], [], patches);
            var st := Cleared(READY_TO_STRESS.status, e.target.value);
            var s := Inject(NAME, Defaulted(STRESS_SPEC), st, e.target.value, w.resources, 0, e);
            && s.outcome.Injected? && s.resources == Resources(map[], Stressing(pods, pod))
            && s.status == st.(exhaustionInjections := [ContainerRecord(pod, CONTAINER, Some(0), false)])
            && Lifecycle.Step(w, NAME, e) ==
               Local(AfterDriver(Defaulted(STRESS_SPEC), READY_TO_STRESS, s, 1, 0, e), s.resources)
  {
    var w, e := Holding(READY_TO_STRESS, Resources(map[], pods), 0), Answers([pod], [], patches);
    StressPassesChecks(w, e);
    OneContainerStarts(Cleared(READY_TO_STRESS.status, e.target.value), e.target.value, pods, pod, e);
  }

  /** With its patches the start is on record; without them nothing but the container remains. */
  lemma StressStarts(pods: map<string, Pod>, pod: string, patches: nat)
    requires pod in pods && CONTAINER !in pods[pod].containers && (patches == 0 || patches == 3)
    ensures var start := Reconcile(NAME, Answers([pod], [], patches));
            var w' := Next(Holding(READY_TO_STRESS, Resources(map[], pods), 0), start);
            && w'.resources == Resources(map[], Stressing(pods, pod)) && w'.clock == 0
            && (patches == 0 ==> w' == Holding(READY_TO_STRESS, Resources(map[], Stressing(pods, pod)), 0))
            && (patches == 3 ==> Stressed(w', pod, PhaseObserving) && !w'.runs[NAME].deleting)
  {
    var w, e := Holding(READY_TO_STRESS, Resources(map[], pods), 0), Answers([pod], [], patches);
    var st := Cleared(READY_TO_STRESS.status, e.target.value);
    var s := Inject(NAME, Defaulted(STRESS_SPEC), st, e.target.value, w.resources, 0, e);
    StressStep(pods, pod, patches);
    if patches == 3 {
      StressIsObserved(s, st, pod, e);
    }
  }

  lemma StressIsObserved(s: Drivers.InjectStep, st: Status, pod: string, e: Env)
    requires s.outcome.Injected? && (forall k :: 0 <= k < 3 ==> e.patchOk(k)) && e.target.Some?
    requires st == Cleared(READY_TO_STRESS.status, e.target.value)
    requires s.status == st.(exhaustionInjections := [ContainerRecord(pod, CONTAINER, Some(0), false)])
    ensures var run := AfterDriver(Defaulted(STRESS_SPEC), READY_TO_STRESS, s, 1, 0, e);
            && Stressed(Holding(run, Resources(map[], map[]), 0), pod, PhaseObserving) && !run.deleting
  {
  }

  /** A reconcile that finds no TaskManager left. */
  const LATER: Event := Reconcile(NAME, Answers([], [], 3))

  lemma WindowEnds(w: World, pod: string)
    requires Stressed(w, pod, PhaseObserving) && !w.runs[NAME].deleting && w.clock == 11 * MINUTE
    ensures AsksNobody(w, LATER)
    ensures var w' := Next(w, LATER);
            && Stressed(w', pod, PhaseCleaningUp) && !w'.runs[NAME].deleting && w'.runs[NAME].status.verdict == VerdictPassed
            && w'.clock == w.clock && w'.resources == w.resources
  {
    var run, spec := w.runs[NAME], Defaulted(STRESS_SPEC);
    assert Lifecycle.Step(w, NAME, LATER.e) == Local(Observing(spec, run, w.resources, w.clock, LATER.e), w.resources);
  }

  lemma RecordIsMarked(st: Status, r: Resources, pod: string, now: int)
    requires st.exhaustionInjections == [ContainerRecord(pod, CONTAINER, Some(0), false)] && now >= MINUTE
    requires st.networkInjections == [] && st.networkPolicies == []
    ensures var c := CleanUp(Defaulted(STRESS_SPEC), st, r, now, LATER.e);
            && c.ok && c.resources == r && CleanupComplete(c.status) && KeepsTheRest(st, c.status)
            && c.status.exhaustionInjections == [ContainerRecord(pod, CONTAINER, Some(0), true)]
  {
    var recs, duration := st.exhaustionInjections, Containers.ExhaustionDuration(Defaulted(STRESS_SPEC).scenario.exhaustion);
    Containers.SettlingIsSound(recs, r.pods, duration, now, LATER.e.getOk);
    assert duration == MINUTE && Containers.Gone(recs[0], r.pods, duration, now);
  }

  lemma StressCloses(w: World, pod: string)
    requires Stressed(w, pod, PhaseCleaningUp) && !w.runs[NAME].deleting && w.runs[NAME].status.verdict == VerdictPassed
    requires w.clock == 11 * MINUTE
    ensures AsksNobody(w, LATER)
    ensures var w' := Next(w, LATER);
            && Ended(w', VerdictPassed) && w'.resources == w.resources
            && w'.runs[NAME].status.exhaustionInjections == [ContainerRecord(pod, CONTAINER, Some(0), true)]
  {
    var run, spec := w.runs[NAME], Defaulted(STRESS_SPEC);
    RecordIsMarked(run.status, w.resources, pod, w.clock);
    CleanupCloses(spec, run, w.resources, w.clock, LATER.e);
    assert Lifecycle.Step(w, NAME, LATER.e) == CleaningUp(spec, run, w.resources, w.clock, LATER.e);
  }

  /** From an injected stress run to its end, with other pods in the cluster by then. */
  lemma StressEnds(start: seq<Event>, pod: string, pods: map<string, Pod>) returns (evs: seq<Event>)
    requires Stressed(Exec(EMPTY, start), pod, PhaseObserving) && !Exec(EMPTY, start).runs[NAME].deleting
    requires Exec(EMPTY, start).clock == 0 && Verdicts.Polls(EMPTY, start, NAME) == []
    ensures Ended(Exec(EMPTY, evs), VerdictPassed) && Verdicts.Polls(EMPTY, evs, NAME) == []
    ensures Exec(EMPTY, evs).resources.pods == pods
    ensures Exec(EMPTY, evs).runs[NAME].status.exhaustionInjections == [ContainerRecord(pod, CONTAINER, Some(0), true)]
  {
    NoPoll(start, ChangePods(pods));
    var changed := start + [ChangePods(pods)];
    NoPoll(changed, Tick(11 * MINUTE));
    var late := changed + [Tick(11 * MINUTE)];
    WindowEnds(Exec(EMPTY, late), pod);
    NoPoll(late, LATER);
    StressCloses(Exec(EMPTY, late + [LATER]), pod);
    NoPoll(late + [LATER], LATER);
    evs := late + [LATER] + [LATER];
  }

  /** The start is on record. */
  lemma StressGoesOn(pending: seq<Event>, pods: map<string, Pod>, pod: string) returns (evs: seq<Event>)
    requires Exec(EMPTY, pending) == Holding(READY_TO_STRESS, Resources(map[], pods), 0)
    requires pod in pods && CONTAINER !in pods[pod].containers && Verdicts.Polls(EMPTY, pending, NAME) == []
    ensures Stressed(Exec(EMPTY, evs), pod, PhaseObserving) && !Exec(EMPTY, evs).runs[NAME].deleting
    ensures Exec(EMPTY, evs).resources.pods == Stressing(pods, pod) && Exec(EMPTY, evs).clock == 0
    ensures Verdicts.Polls(EMPTY, evs, NAME) == []
  {
    var start := Reconcile(NAME, Answers([pod], [], 3));
    StressStarts(pods, pod, 3);
    NoPoll(pending, start);
    evs := pending + [start];
  }

  lemma StressIsReachable(pods: map<string, Pod>, pod: string) returns (evs: seq<Event>)
    requires pod in pods && CONTAINER !in pods[pod].containers
    ensures Stressed(Exec(EMPTY, evs), pod, PhaseObserving) && !Exec(EMPTY, evs).runs[NAME].deleting
    ensures Exec(EMPTY, evs).resources.pods == Stressing(pods, pod) && Exec(EMPTY, evs).clock == 0
    ensures Verdicts.Polls(EMPTY, evs, NAME) == []
  {
    var pending := RunIsPending(STRESS_SPEC, pods);
    evs := StressGoesOn(pending, pods, pod);
  }

  /** A stressed workload that is never polled and has no pod left at the end completes as Passed. */
  lemma DeadWorkloadPasses() returns (evs: seq<Event>)
    ensures Initial(EMPTY) && Ended(Exec(EMPTY, evs), VerdictPassed)
    ensures Verdicts.Polls(EMPTY, evs, NAME) == [] && Exec(EMPTY, evs).resources.pods == map[]
  {
    var start := StressIsReachable(map["tm-0" := POD], "tm-0");
    evs := StressEnds(start, "tm-0", map[]);
  }

  /******* A container that no record names *******/

  /** The container has started, and its patch is lost. */
  lemma LostStart(pods: map<string, Pod>, pod: string) returns (evs: seq<Event>)
    requires pod in pods && CONTAINER !in pods[pod].containers
    ensures Exec(EMPTY, evs) == Holding(READY_TO_STRESS, Resources(map[], Stressing(pods, pod)), 0)
    ensures Verdicts.Polls(EMPTY, evs, NAME) == []
  {
    var lost := Reconcile(NAME, Answers([pod], [], 0));
    var pending := RunIsPending(STRESS_SPEC, pods);
    StressStarts(pods, pod, 0);
    NoPoll(pending, lost);
    evs := pending + [lost];
  }

  lemma OnlyTheSecondIsOnRecord(recs: seq<ContainerRecord>, pods: map<string, Pod>)
    requires pods == Stressing(Stressing(map["tm-0" := POD, "tm-1" := POD], "tm-0"), "tm-1")
    requires recs == [ContainerRecord("tm-1", CONTAINER, Some(0), true)]
    ensures Containers.Has(pods, "tm-0", CONTAINER) && !Containers.OnRecord(recs, "tm-0", CONTAINER)
  {
    assert "tm-0"[3] != "tm-1"[3];
    assert pods["tm-0"].containers == [CONTAINER];
  }

  /**
   A start whose patch is lost, and a second start on another pod: the run completes, with a container of its own
   in a live pod that is not on record.
   */
  lemma UnrecordedContainerIsReachable() returns (evs: seq<Event>)
    ensures Initial(EMPTY) && Ended(Exec(EMPTY, evs), VerdictPassed)
    ensures Containers.Has(Exec(EMPTY, evs).resources.pods, "tm-0", CONTAINER)
    ensures !Containers.OnRecord(Exec(EMPTY, evs).runs[NAME].status.exhaustionInjections, "tm-0", CONTAINER)
  {
    var both := map["tm-0" := POD, "tm-1" := POD];
    assert "tm-0"[3] != "tm-1"[3];
    var one := Stressing(both, "tm-0");
    var lost := LostStart(both, "tm-0");
    var kept := StressGoesOn(lost, one, "tm-1");
    evs := StressEnds(kept, "tm-1", Stressing(one, "tm-1"));
    OnlyTheSecondIsOnRecord(Exec(EMPTY, evs).runs[NAME].status.exhaustionInjections, Stressing(one, "tm-1"));
  }

  /******* A deletion that does not wait *******/

  lemma DeletionIsRequested(w: World, pod: string)
    requires Stressed(w, pod, PhaseObserving)
    ensures var w' := Next(w, RequestDelete(NAME));
            && Stressed(w', pod, PhaseObserving) && w'.runs[NAME].deleting
            && w'.resources == w.resources && w'.clock == w.clock
  {
  }

  lemma ContainerIsAtWork(st: Status, pods: map<string, Pod>)
    requires pods == Stressing(map["tm-0" := POD], "tm-0")
    requires st.exhaustionInjections == [ContainerRecord("tm-0", CONTAINER, Some(0), false)]
    ensures Containers.Has(pods, "tm-0", CONTAINER)
    ensures !Bookkeeping.ChaosIsOver(Defaulted(STRESS_SPEC), st, Resources(map[], pods), 0)
  {
    assert pods["tm-0"].containers == [CONTAINER];
    var duration := Containers.ExhaustionDuration(Defaulted(STRESS_SPEC).scenario.exhaustion);
    assert duration == MINUTE && !Containers.Gone(st.exhaustionInjections[0], pods, duration, 0);
  }

  lemma DeletionGoesThrough(w: World, pod: string)
    requires Stressed(w, pod, PhaseObserving) && w.runs[NAME].deleting
    ensures var w' := Next(w, LATER);
            && NAME in w'.runs && w'.runs[NAME] == w.runs[NAME].(finalizer := false)
            && w'.resources == w.resources && w'.clock == w.clock
  {
    var run, spec := w.runs[NAME], Defaulted(STRESS_SPEC);
    Bookkeeping.CleanUpOkIff(spec, run.status, w.resources, w.clock, LATER.e);
    assert Lifecycle.Step(w, NAME, LATER.e) == Deleting(spec, run, w.resources, w.clock, LATER.e);
  }

  /** A run deleted right after its injection loses its finalizer while its container is still at work. */
  lemma DeletedWhileStressedIsReachable() returns (evs: seq<Event>)
    ensures Initial(EMPTY)
    ensures var w := Exec(EMPTY, evs);
            && NAME in w.runs && w.runs[NAME].deleting && !w.runs[NAME].finalizer
            && Containers.Has(w.resources.pods, "tm-0", CONTAINER)
            && !Bookkeeping.ChaosIsOver(Defaulted(w.runs[NAME].spec), w.runs[NAME].status, w.resources, w.clock)
  {
    var start := StressIsReachable(map["tm-0" := POD], "tm-0");
    DeletionIsRequested(Exec(EMPTY, start), "tm-0");
    ExecOfAppended(EMPTY, start, RequestDelete(NAME));
    evs := DoomedRunIsReleased(start + [RequestDelete(NAME)]);
  }

  lemma DoomedRunIsReleased(doomed: seq<Event>) returns (evs: seq<Event>)
    requires Stressed(Exec(EMPTY, doomed), "tm-0", PhaseObserving) && Exec(EMPTY, doomed).runs[NAME].deleting
    requires Exec(EMPTY, doomed).resources.pods == Stressing(map["tm-0" := POD], "tm-0") && Exec(EMPTY, doomed).clock == 0
    ensures var w := Exec(EMPTY, evs);
            && NAME in w.runs && w.runs[NAME].deleting && !w.runs[NAME].finalizer
            && Containers.Has(w.resources.pods, "tm-0", CONTAINER)
            && !Bookkeeping.ChaosIsOver(Defaulted(w.runs[NAME].spec), w.runs[NAME].status, w.resources, w.clock)
  {
    DeletionGoesThrough(Exec(EMPTY, doomed), "tm-0");
    ContainerIsAtWork(Exec(EMPTY, doomed).runs[NAME].status, Exec(EMPTY, doomed).resources.pods);
    ExecOfAppended(EMPTY, doomed, LATER);
    evs := doomed + [LATER];
  }
}
