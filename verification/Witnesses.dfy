/** Executions from an empty namespace that reach the states the other results warn about. */
module Witnesses {
  import opened Wrappers
  import opened ChaosApi
  import opened NetworkPolicies
  import opened Cluster
  import opened Lifecycle
  import opened Execution
  import opened Invariants
  import opened Guarantees
  import opened Deadlines
  import Drivers
  import Partition
  import Safety
  import TaskManagers
  import PodKill
  import Injections
  import Verdicts

  const NAME: string := "run"

  const EMPTY: World := World("default", map[], Resources(map[], map[]), 0)

  const NO_REST: FlinkRest := FlinkRest(false, "", false, 0, None)

  function SpecOf(scenario: ScenarioSpec, rest: FlinkRest): RunSpec {
    RunSpec(TargetSpec(FlinkDeployment, "job", "", "", None), scenario, ObserveSpec(true, 0, 0, rest),
            SafetySpec(false, 0, None, false, None, false, None), false)
  }

  /** Every call succeeds, except that only the first `patches` status and finalizer patches do. */
  function Answers(tmPods: seq<string>, policyOrder: seq<string>, patches: nat): Env {
    Env(Some(ResolvedTarget("flink", "job", tmPods, false)), NotStable, 0, None, None, [], policyOrder, true, true,
        k => k < patches, _ => true, _ => NoFault, _ => NoFault, _ => NoFault)
  }

  /******* A wait without end *******/

  const CHECKPOINT_SPEC: RunSpec :=
    SpecOf(ScenarioSpec(TaskManagerPodKill, Selection(UnsetMode, 0, []), None, None),
           FlinkRest(true, "http://jm:8081", true, 0, None))

  /** With the default timeout, even probes of four minutes keep a run waiting from its creation on. */
  lemma WaitingIsReachable()
    ensures Initial(EMPTY) && Waiting(Exec(EMPTY, [CreateRun(NAME, CHECKPOINT_SPEC)]), NAME, 4 * MINUTE)
  {
    ExecOfAppended(EMPTY, [], CreateRun(NAME, CHECKPOINT_SPEC));
  }

  /******* A dirty failure that keeps its finalizer *******/

  const PARTITION_SPEC: RunSpec :=
    SpecOf(ScenarioSpec(NetworkPartition, Selection(UnsetMode, 0, []),
                        Some(NetworkSpec(TMtoJM, Both, None, None, None, None, "", None)), None), NO_REST)

  /** One stored run of that name and some policies and pods. */
  function Holding(run: Run, r: Resources, clock: int): World {
    World("default", map[NAME := run], r, clock)
  }

  lemma PendingMovesOn(run: Run, now: int, e: Env)
    requires Valid(Defaulted(run.spec)) && !run.spec.observe.rest.requireStableCheckpoint
    requires e.patchOk(0) && e.patchOk(1)
    ensures Pending(Defaulted(run.spec), run, now, e)
         == run.(status := run.status.(startedAt := Some(Stamp(now)), phase := PhaseInjecting))
  {
  }

  lemma PendingReconcileMovesOn(run: Run, r: Resources, clock: int, e: Env)
    requires Early(run.status.phase) && !run.deleting && !run.spec.abort && Valid(Defaulted(run.spec))
    requires !run.spec.observe.rest.requireStableCheckpoint && e.patchOk(0) && e.patchOk(1)
    ensures Reconciled(Holding(run, r, clock), NAME, e)
         == Holding(run.(status := run.status.(startedAt := Some(Stamp(clock)), phase := PhaseInjecting)), r, clock)
  {
    PendingMovesOn(run, clock, e);
    assert Lifecycle.Step(Holding(run, r, clock), NAME, e)
           == Local(Pending(Defaulted(run.spec), run, clock, e), r);
  }

  /** The observer is not asked in this event. */
  predicate AsksNobody(w: World, ev: Event) {
    ev.Reconcile? && NAME in w.runs ==> !Verdicts.Asks(Defaulted(w.runs[NAME].spec), w.runs[NAME], w.clock)
  }

  lemma NoPoll(evs: seq<Event>, ev: Event)
    requires Verdicts.Polls(EMPTY, evs, NAME) == [] && AsksNobody(Exec(EMPTY, evs), ev)
    ensures Verdicts.Polls(EMPTY, evs + [ev], NAME) == []
    ensures Exec(EMPTY, evs + [ev]) == Next(Exec(EMPTY, evs), ev)
  {
    assert (evs + [ev])[..|evs|] == evs;
    ExecOfAppended(EMPTY, evs, ev);
  }

  /** The run is created and validated next to those pods. */
  lemma RunIsPending(spec: RunSpec, pods: map<string, Pod>) returns (evs: seq<Event>)
    requires Valid(Defaulted(spec)) && !spec.abort && !spec.observe.rest.requireStableCheckpoint
    ensures Exec(EMPTY, evs) == Holding(
              Run(spec, FRESH_STATUS.(startedAt := Some(0), phase := PhaseInjecting), false, false),
              Resources(map[], pods), 0)
    ensures Verdicts.Polls(EMPTY, evs, NAME) == []
  {
    var e, run := Answers([], [], 3), Run(spec, FRESH_STATUS, false, false);
    var created := [] + [CreateRun(NAME, spec)];
    NoPoll([], CreateRun(NAME, spec));
    assert Exec(EMPTY, created) == Holding(run, EMPTY.resources, 0);
    NoPoll(created, ChangePods(pods));
    assert Exec(EMPTY, created + [ChangePods(pods)]) == Holding(run, Resources(map[], pods), 0);
    PendingReconcileMovesOn(run, Resources(map[], pods), 0, e);
    NoPoll(created + [ChangePods(pods)], Reconcile(NAME, e));
    evs := created + [ChangePods(pods)] + [Reconcile(NAME, e)];
  }

  /** The partition of this section has both its policies, its finalizer, and the given phase. */
  predicate Partitioned(w: World, phase: Phase) {
    && NAME in w.runs
    && var run := w.runs[NAME];
       && run.spec == PARTITION_SPEC.(abort := run.spec.abort)
       && run.status.phase == phase && run.status.startedAt == Some(0) && run.finalizer && !run.deleting
       && Labelled(w.resources.policies, NAME) == {IngressName(NAME), EgressName(NAME)}
  }

  lemma BothPoliciesAreDue(n: NetworkSpec)
    requires Defaulted(PARTITION_SPEC).scenario.network == Some(n)
    ensures var due := Partition.PoliciesFor(NAME, n);
            && due.Some? && |due.value| == 2
            && due.value[0].name == IngressName(NAME) && due.value[1].name == EgressName(NAME)
  {
  }

  lemma BothPoliciesAreCreated(st: Status, target: ResolvedTarget, pods: map<string, Pod>, e: Env)
    requires forall p :: e.createFault(p) == NoFault
    ensures var s := Partition.InjectPartition(
                       NAME, Defaulted(PARTITION_SPEC).scenario.network, st, target, Resources(map[], pods), e);
            && s.outcome.Injected?
            && Labelled(s.resources.policies, NAME) == {IngressName(NAME), EgressName(NAME)}
  {
    var n := Defaulted(PARTITION_SPEC).scenario.network.value;
    BothPoliciesAreDue(n);
    Partition.PoliciesCarryTheRun(NAME, n);
    PolicyNamesAreDistinct(NAME, NAME);
    TwoPoliciesAreCreated(Partition.PoliciesFor(NAME, n).value, e.createFault);
  }

  lemma TwoPoliciesAreCreated(due: seq<Policy>, fault: string -> Fault)
    requires |due| == 2 && due[0].name != due[1].name
    requires due[0].runName == due[1].runName == Some(NAME)
    requires fault(due[0].name) == fault(due[1].name) == NoFault
    ensures var c := Partition.CreatedAll(map[], due, fault);
            c.ok && Labelled(c.policies, NAME) == {due[0].name, due[1].name}
  {
    var one, last := map[due[0].name := due[0]], [due[1]];
    assert due[1..] == last && last[1..] == [];
    var both := one[due[1].name := due[1]];
    assert Partition.CreatedAll(both, last[1..], fault) == Partition.Creation(both, [], true);
    var rest := Partition.CreatedAll(one, last, fault);
    assert rest.ok && rest.policies == both;
    assert Partition.CreatedAll(map[], due, fault).policies == rest.policies;
  }

  /** The listing order used below. */
  const ORDER: seq<string> := [IngressName(NAME), EgressName(NAME)]

  lemma OrderEnumerates(w: World, phase: Phase)
    requires Partitioned(w, phase)
    ensures Enumerates(ORDER, Labelled(w.resources.policies, NAME))
  {
    PolicyNamesAreDistinct(NAME, NAME);
  }

  lemma NothingElseRuns(w: World, target: string)
    requires w.runs.Keys == {NAME}
    ensures Safety.ActivePeers(w.runs, NAME, target) == {}
  {
  }

  lemma PartitionPassesChecks(w: World, e: Env)
    requires w.namespace == "default" && w.runs.Keys == {NAME}
    requires e.target == Some(ResolvedTarget("flink", "job", ["tm-0"], false)) && e.listRunsOk
    ensures PassesChecks(w.namespace, NAME, Defaulted(PARTITION_SPEC), w.runs, e)
  {
    NothingElseRuns(w, "job");
  }

  lemma InjectedRunIsObserved(spec: RunSpec, run: Run, step: Drivers.InjectStep, count: nat, now: int, e: Env)
    requires NeedsCleanup(spec.scenario.kind) && step.outcome.Injected? && forall k :: 0 <= k < 3 ==> e.patchOk(k)
    ensures var run' := AfterDriver(spec, run, step, count, now, e);
            && run' == run.(status := run'.status, finalizer := true)
            && run'.status.phase == PhaseObserving && run'.status.startedAt == step.status.startedAt
            && run'.status.observingStartedAt == Some(Stamp(now)) && run'.status.injectedPods == step.outcome.injected
            && run'.status.exhaustionInjections == step.status.exhaustionInjections
  {
  }

  lemma PartitionStarts(run: Run, pods: map<string, Pod>, clock: int)
    requires run.spec == PARTITION_SPEC && !run.deleting && !run.finalizer
    requires run.status == FRESH_STATUS.(startedAt := Some(0), phase := PhaseInjecting)
    ensures var w' := Reconciled(Holding(run, Resources(map[], pods), clock), NAME, Answers(["tm-0"], [], 3));
            && Partitioned(w', PhaseObserving) && w'.runs[NAME].spec == PARTITION_SPEC
            && w'.runs[NAME].status.observingStartedAt == Some(Stamp(clock))
            && w'.runs[NAME].status.injectedPods == ["tm-0"]
  {
    var w, e := Holding(run, Resources(map[], pods), clock), Answers(["tm-0"], [], 3);
    var spec, target := Defaulted(PARTITION_SPEC), e.target.value;
    var step := Inject(NAME, spec, Cleared(run.status, target), target, w.resources, clock, e);
    PartitionPassesChecks(w, e);
    BothPoliciesAreCreated(Cleared(run.status, target), target, pods, e);
    InjectKeepsTheRest(NAME, spec, Cleared(run.status, target), target, w.resources, clock, e);
    InjectedRunIsObserved(spec, run, step, |target.tmPods|, clock, e);
    assert Lifecycle.Step(w, NAME, e) == Local(AfterDriver(spec, run, step, |target.tmPods|, clock, e), step.resources);
  }

  /** What the cleanup phase of the witness is made of. */
  const CLEANUP: Event := Reconcile(NAME, Answers([], ORDER, 3))

  lemma AbortIsSet(w: World)
    requires Partitioned(w, PhaseObserving)
    ensures var w' := Next(w, SetAbort(NAME, true)); Partitioned(w', PhaseObserving) && w'.runs[NAME].spec.abort
  {
  }

  lemma AbortedPartitionCleansUp(w: World)
    requires Partitioned(w, PhaseObserving) && w.runs[NAME].spec.abort
    ensures Partitioned(Next(w, CLEANUP), PhaseCleaningUp)
  {
    OrderEnumerates(w, PhaseObserving);
  }

  lemma TimePasses(w: World, elapsed: nat, phase: Phase)
    requires Partitioned(w, phase)
    ensures var w' := Next(w, Tick(elapsed)); Partitioned(w', phase) && w'.clock == w.clock + elapsed
  {
  }

  lemma ExpiredPartitionFails(w: World)
    requires Partitioned(w, PhaseCleaningUp) && w.clock > 15 * MINUTE
    ensures Partitioned(Next(w, CLEANUP), PhaseFailed)
  {
    OrderEnumerates(w, PhaseCleaningUp);
  }

  /** Neither an abort nor a reconcile turns the clock. */
  lemma ClockStands(w: World, ev: Event)
    requires !ev.Tick?
    ensures Next(w, ev).clock == w.clock
  {
  }

  /** The run is created, validated and injected. */
  lemma PartitionIsReachable() returns (evs: seq<Event>)
    ensures var w := Exec(EMPTY, evs);
            && Partitioned(w, PhaseObserving) && w.clock == 0 && w.runs[NAME].spec == PARTITION_SPEC
            && w.runs[NAME].status.observingStartedAt == Some(0) && w.runs[NAME].status.injectedPods == ["tm-0"]
  {
    var inject := Reconcile(NAME, Answers(["tm-0"], [], 3));
    var pending := RunIsPending(PARTITION_SPEC, map[]);
    PartitionStarts(Exec(EMPTY, pending).runs[NAME], map[], 0);
    ExecOfAppended(EMPTY, pending, inject);
    evs := pending + [inject];
  }

  lemma LateCleanupFails(before: seq<Event>) returns (evs: seq<Event>)
    requires Partitioned(Exec(EMPTY, before), PhaseObserving) && Exec(EMPTY, before).clock == 0
    ensures Partitioned(Exec(EMPTY, evs), PhaseFailed)
  {
    var w := Exec(EMPTY, before);
    var w1 := Next(w, SetAbort(NAME, true));
    var w2 := Next(w1, CLEANUP);
    var w3 := Next(w2, Tick(16 * MINUTE));
    AbortIsSet(w);
    ClockStands(w, SetAbort(NAME, true));
    AbortedPartitionCleansUp(w1);
    ClockStands(w1, CLEANUP);
    TimePasses(w2, 16 * MINUTE, PhaseCleaningUp);
    ExpiredPartitionFails(w3);
    evs := FourMore(before, SetAbort(NAME, true), CLEANUP, Tick(16 * MINUTE), CLEANUP);
  }

  lemma TwoMore(evs: seq<Event>, a: Event, b: Event)
    ensures Exec(EMPTY, evs + [a] + [b]) == Next(Next(Exec(EMPTY, evs), a), b)
  {
    ExecOfAppended(EMPTY, evs, a);
    ExecOfAppended(EMPTY, evs + [a], b);
  }

  lemma FourMore(evs: seq<Event>, a: Event, b: Event, c: Event, d: Event) returns (more: seq<Event>)
    ensures |more| == |evs| + 4 && more[|evs| + 2] == c
    ensures Exec(EMPTY, more[..|evs| + 2]) == Next(Next(Exec(EMPTY, evs), a), b)
    ensures Exec(EMPTY, more) == Next(Next(Next(Next(Exec(EMPTY, evs), a), b), c), d)
  {
    var two := evs + [a] + [b];
    TwoMore(evs, a, b);
    TwoMore(two, c, d);
    more := two + [c] + [d];
    assert more[..|evs| + 2] == two;
  }

  /**
   A partition that is aborted and then not reconciled until its cleanup deadline has passed ends Failed, with
   both policies and with the finalizer.
   */
  lemma DirtyFailureIsReachable() returns (evs: seq<Event>)
    ensures var w := Exec(EMPTY, evs);
            && Initial(EMPTY) && NAME in w.runs
            && w.runs[NAME].status.phase == PhaseFailed && w.runs[NAME].finalizer
            && Labelled(w.resources.policies, NAME) == {IngressName(NAME), EgressName(NAME)}
  {
    var before := PartitionIsReachable();
    evs := LateCleanupFails(before);
  }

  /******* Every named pod of a target is killed *******/

  const POD: Pod := Pod(true, [true], [], [])

  const EXPLICIT_SPEC: RunSpec :=
    SpecOf(ScenarioSpec(TaskManagerPodKill, Selection(Explicit, 0, ["tm-0", "tm-1"]), None, None), NO_REST)

  lemma BothWillBeKilled(w: World, pods: map<string, Pod>, e: Env)
    requires w == Holding(Run(EXPLICIT_SPEC, FRESH_STATUS.(startedAt := Some(0), phase := PhaseInjecting), false, false),
                          Resources(map[], pods), 0)
    requires pods.Keys == {"tm-0", "tm-1"} && e == Answers(["tm-0", "tm-1"], [], 3)
    ensures Possible(w, Reconcile(NAME, e)) && Reconciled(w, NAME, e).resources.pods == map[]
  {
    NothingElseRuns(w, "job");
    assert "tm-0"[3] != "tm-1"[3];
    assert TaskManagers.AboutToKillBoth(w, NAME, e);
    TaskManagers.ExplicitCanKillEveryPod(w, NAME, e);
  }

  /** With the default minimum of one TaskManager, an Explicit run passes every check and kills both of two. */
  lemma EveryPodKilledIsReachable() returns (evs: seq<Event>)
    ensures Initial(EMPTY)
    ensures Defaulted(EXPLICIT_SPEC).safety.minRemaining == Some(1)
    ensures evs != [] && Exec(EMPTY, evs[..|evs| - 1]).resources.pods == map["tm-0" := POD, "tm-1" := POD]
    ensures evs[|evs| - 1] == Reconcile(NAME, Answers(["tm-0", "tm-1"], [], 3))
    ensures Exec(EMPTY, evs).resources.pods == map[]
  {
    var pods := map["tm-0" := POD, "tm-1" := POD];
    var e := Answers(["tm-0", "tm-1"], [], 3);
    var pending := RunIsPending(EXPLICIT_SPEC, pods);
    BothWillBeKilled(Exec(EMPTY, pending), pods, e);
    ExecOfAppended(EMPTY, pending, Reconcile(NAME, e));
    evs := pending + [Reconcile(NAME, e)];
    assert evs[..|pending|] == pending;
  }

  /******* A lost patch kills again *******/

  const RANDOM_SPEC: RunSpec :=
    SpecOf(ScenarioSpec(TaskManagerPodKill, Selection(UnsetMode, 0, []), None, None), NO_REST)

  const READY_TO_KILL: Run :=
    Run(RANDOM_SPEC, FRESH_STATUS.(startedAt := Some(0), phase := PhaseInjecting), false, false)

  lemma RandomKillPassesChecks(w: World, e: Env)
    requires w.namespace == "default" && w.runs.Keys == {NAME}
    requires e.target.Some? && e.target.value.logicalName == "job" && !e.target.value.shared && e.listRunsOk
    requires 2 <= |e.target.value.tmPods| < 0x8000_0000
    ensures PassesChecks(w.namespace, NAME, Defaulted(RANDOM_SPEC), w.runs, e)
  {
    NothingElseRuns(w, "job");
  }

  lemma FirstIsKilled(st: Status, target: ResolvedTarget, r: Resources, e: Env)
    requires |target.tmPods| >= 2 && e.swaps == [] && forall p :: e.deleteFault(p) == NoFault
    ensures var s := InjectPodKill(Defaulted(RANDOM_SPEC), st, target, r, e);
            s.outcome.Injected? && s.resources == r.(pods := r.pods - {target.tmPods[0]})
  {
    var chosen := target.tmPods[..1];
    assert PodKill.Selected(Defaulted(RANDOM_SPEC).scenario.selection, target.tmPods, []) == Some(chosen);
    assert chosen == [target.tmPods[0]] && chosen[1..] == [];
    assert PodKill.Deleted(r.pods - {chosen[0]}, chosen[1..], e.deleteFault).ok;
  }

  lemma RandomKillKillsOne(pods: map<string, Pod>, names: seq<string>, patches: nat)
    requires 2 <= |names| < 0x8000_0000 && NoDuplicates(names) && names[0] in pods
    ensures var w, e := Holding(READY_TO_KILL, Resources(map[], pods), 0), Answers(names, [], patches);
            && Injections.Injects(w, Reconcile(NAME, e), NAME)
            && Reconciled(w, NAME, e).resources.pods == pods - {names[0]}
            && (patches == 0 ==>
                  Reconciled(w, NAME, e) == Holding(READY_TO_KILL, Resources(map[], pods - {names[0]}), 0))
  {
    var w, e := Holding(READY_TO_KILL, Resources(map[], pods), 0), Answers(names, [], patches);
    var spec, target := Defaulted(RANDOM_SPEC), e.target.value;
    var step := Inject(NAME, spec, Cleared(READY_TO_KILL.status, target), target, w.resources, 0, e);
    RandomKillPassesChecks(w, e);
    FirstIsKilled(Cleared(READY_TO_KILL.status, target), target, w.resources, e);
    assert Lifecycle.Step(w, NAME, e)
           == Local(AfterDriver(spec, READY_TO_KILL, step, |names|, 0, e), step.resources);
  }

  /** A random kill of one pod whose first status patch is lost kills a second one. */
  lemma LostPatchKillsAgain() returns (evs: seq<Event>)
    ensures Initial(EMPTY) && NAME in Exec(EMPTY, evs).runs
    ensures Exec(EMPTY, evs).runs[NAME].spec == RANDOM_SPEC && Defaulted(RANDOM_SPEC).scenario.selection.count == 1
    ensures Exec(EMPTY, evs).resources.pods == map["tm-2" := POD]
    ensures Injections.CountInjections(EMPTY, evs, NAME) >= 2
  {
    var three := map["tm-0" := POD, "tm-1" := POD, "tm-2" := POD];
    var names := ["tm-0", "tm-1", "tm-2"];
    DistinctNames(names);
    var lost := LostKill(three, names);
    evs := SecondKill(lost, three - {"tm-0"}, names[1..]);
    assert three - {"tm-0"} - {"tm-1"} == map["tm-2" := POD];
  }

  /** The first pod is killed, and the patch is lost. */
  lemma LostKill(pods: map<string, Pod>, names: seq<string>) returns (evs: seq<Event>)
    requires 2 <= |names| < 0x8000_0000 && NoDuplicates(names) && names[0] in pods
    ensures Exec(EMPTY, evs) == Holding(READY_TO_KILL, Resources(map[], pods - {names[0]}), 0)
    ensures Injections.CountInjections(EMPTY, evs, NAME) >= 1
  {
    var lost := Reconcile(NAME, Answers(names, [], 0));
    var pending := RunIsPending(RANDOM_SPEC, pods);
    RandomKillKillsOne(pods, names, 0);
    ExecOfAppended(EMPTY, pending, lost);
    Injections.CountOfAppended(EMPTY, pending, lost, NAME);
    evs := pending + [lost];
  }

  lemma SecondKill(before: seq<Event>, pods: map<string, Pod>, names: seq<string>) returns (evs: seq<Event>)
    requires Exec(EMPTY, before) == Holding(READY_TO_KILL, Resources(map[], pods), 0)
    requires 2 <= |names| < 0x8000_0000 && NoDuplicates(names) && names[0] in pods
    ensures NAME in Exec(EMPTY, evs).runs && Exec(EMPTY, evs).runs[NAME].spec == RANDOM_SPEC
    ensures Exec(EMPTY, evs).resources.pods == pods - {names[0]}
    ensures Injections.CountInjections(EMPTY, evs, NAME) == Injections.CountInjections(EMPTY, before, NAME) + 1
  {
    var kept := Reconcile(NAME, Answers(names, [], 3));
    var w := Exec(EMPTY, before);
    RandomKillKillsOne(pods, names, 3);
    StepKeepsIdentity(Defaulted(RANDOM_SPEC), READY_TO_KILL, w, NAME, kept.e);
    ExecOfAppended(EMPTY, before, kept);
    Injections.CountOfAppended(EMPTY, before, kept, NAME);
    evs := before + [kept];
  }

  lemma DistinctNames(names: seq<string>)
    requires names == ["tm-0", "tm-1", "tm-2"]
    ensures NoDuplicates(names) && NoDuplicates(names[1..])
  {
    assert names[0][3] == '0' && names[1][3] == '1' && names[2][3] == '2';
  }
}
