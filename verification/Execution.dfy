/**
 Whole runs of the system: any number of ChaosRuns, reconciled one at a time in any order, while users
 create, abort and delete them, pods come and go, other policies change and time passes.
 */
module Execution {
  import opened ChaosApi
  import opened NetworkPolicies
  import opened Cluster
  import opened Lifecycle

  datatype Event =
    | Reconcile(name: string, e: Env)
    | CreateRun(name: string, spec: RunSpec)
    | SetAbort(name: string, on: bool)
    | RequestDelete(name: string)
    | Vanish(name: string)
    | ChangePods(pods: map<string, Pod>)
    | ChangePolicies(policies: map<string, Policy>)
    | Tick(elapsed: nat)

  /** Policies of other owners may change freely; nobody but the operator adds one with a run's label. */
  predicate LabelsOnlyShrink(before: map<string, Policy>, after: map<string, Policy>) {
    forall n <- after :: after[n].runName.Some? ==> n in before && before[n] == after[n]
  }

  predicate Possible(w: World, ev: Event) {
    match ev
    case Reconcile(n, e) =>
      && n in w.runs
      && Enumerates(e.policyOrder, Labelled(w.resources.policies, n))
      && (e.target.Some? ==> NoDuplicates(e.target.value.tmPods))
    case CreateRun(n, _) => n !in w.runs && Labelled(w.resources.policies, n) == {}
    case SetAbort(n, _) => n in w.runs
    case RequestDelete(n) => n in w.runs
    case Vanish(n) => n in w.runs && w.runs[n].deleting && !w.runs[n].finalizer
    case ChangePods(_) => true
    case ChangePolicies(ps) => LabelsOnlyShrink(w.resources.policies, ps)
    case Tick(_) => true
  }

  function Next(w: World, ev: Event): World {
    if !Possible(w, ev) then w
    else
      match ev
      case Reconcile(n, e) => Reconciled(w, n, e)
      case CreateRun(n, spec) => w.(runs := w.runs[n := Run(spec, FRESH_STATUS, false, false)])
      case SetAbort(n, on) => w.(runs := w.runs[n := w.runs[n].(spec := w.runs[n].spec.(abort := on))])
      case RequestDelete(n) => w.(runs := w.runs[n := w.runs[n].(deleting := true)])
      case Vanish(n) => w.(runs := w.runs - {n})
      case ChangePods(pods) => w.(resources := w.resources.(pods := pods))
      case ChangePolicies(ps) => w.(resources := w.resources.(policies := ps))
      case Tick(elapsed) => w.(clock := w.clock + elapsed)
  }

  /**
   The world after a history. Lemmas about histories carry {:induction false}: those that need an induction
   spell it out, and the others follow from an invariant, where Dafny would start one of its own.
   */
  function Exec(w: World, evs: seq<Event>): World {
    if evs == [] then w else Next(Exec(w, evs[..|evs| - 1]), evs[|evs| - 1])
  }

  lemma ExecOfAppended(w: World, evs: seq<Event>, ev: Event)
    ensures Exec(w, evs + [ev]) == Next(Exec(w, evs), ev)
  {
    assert (evs + [ev])[..|evs|] == evs;
  }

  lemma {:induction false} ExecOfConcatenation(w: World, evs: seq<Event>, more: seq<Event>)
    ensures Exec(w, evs + more) == Exec(Exec(w, evs), more)
  {
    if more == [] {
      assert evs + more == evs;
    } else {
      ExecOfConcatenation(w, evs, more[..|more| - 1]);
      assert (evs + more)[..|evs + more| - 1] == evs + more[..|more| - 1];
    }
  }

  /** Nothing has been created yet. */
  predicate Initial(w: World) {
    w.runs == map[] && forall n <- w.resources.policies :: w.resources.policies[n].runName.None?
  }

  /******* What every reachable run satisfies *******/

  predicate Early(p: Phase) { p == PhaseUnset || p == PhasePending }

  predicate Blank(st: Status) {
    && st.injectedPods == [] && st.selectedPods == [] && st.networkPolicies == []
    && st.networkInjections == [] && st.exhaustionInjections == []
    && st.targetSummary.None? && st.observation.None? && st.observingStartedAt.None?
  }

  /** What a spec that passed validation guarantees the drivers. */
  predicate Usable(spec: RunSpec) {
    var s := spec.scenario;
    && s.kind != UnsupportedScenario
    && (s.kind == NetworkPartition || s.kind == NetworkChaos ==> s.network.Some? && s.network.value.duration.Some?)
    && (s.kind == ResourceExhaustion ==> s.exhaustion.Some? && s.exhaustion.value.duration.Some?)
  }

  lemma ValidSpecsAreUsable(s: RunSpec)
    ensures Valid(Defaulted(s)) ==> Usable(Defaulted(s))
  {
  }

  /** Verdict, end and recovery belong to the last phases. */
  predicate TimelineInv(st: Status) {
    && (st.endedAt.Some? <==> IsTerminal(st.phase))
    && (!IsTerminal(st.phase) && st.phase != PhaseCleaningUp ==> st.verdict == NoVerdict && !RecoverySeen(st))
    && (st.phase == PhaseFailed ==> st.verdict == VerdictFailed)
    && (st.phase == PhaseAborted ==> st.verdict == VerdictInconclusive)
    && (st.phase == PhaseCompleted ==> st.verdict != NoVerdict)
    && (Early(st.phase) ==> Blank(st))
    && (st.phase in {PhaseInjecting, PhaseObserving, PhaseCleaningUp} ==> st.startedAt.Some?)
    && (st.phase == PhaseObserving ==> st.observingStartedAt.Some? && st.observation.Some?)
    && (st.injectedPods != [] ==> st.observation.Some?)
  }

  predicate AbortInv(st: Status) {
    HasConditionTrue(st, AbortRequested) ==>
      || st.phase == PhaseCleaningUp
      || st.phase == PhaseAborted
      || (st.phase == PhaseFailed && NetworkChaosCleanedUp in st.conditions && !st.conditions[NetworkChaosCleanedUp])
  }

  /** Each scenario leaves only its own kind of trace in the status. */
  predicate ScenarioInv(spec: RunSpec, st: Status) {
    var kind := spec.scenario.kind;
    && (st.networkPolicies != [] ==> kind == NetworkPartition)
    && (st.networkInjections != [] ==> kind == NetworkChaos)
    && (st.exhaustionInjections != [] ==> kind == ResourceExhaustion)
    && (st.phase in {PhaseInjecting, PhaseObserving, PhaseCleaningUp, PhaseCompleted} ==> Usable(spec))
    && (st.phase == PhaseObserving || st.injectedPods != [] ==> kind != UnsetScenario)
    && (st.phase == PhaseCleaningUp ==> NeedsCleanup(kind))
    && (kind == NetworkPartition ==> !st.replacementObserved && !RecoverySeen(st))
    && (st.phase == PhaseCompleted || st.phase == PhaseAborted ==> CleanupComplete(st))
  }

  predicate DryRunInv(spec: RunSpec, st: Status) {
    spec.safety.dryRun ==>
      && st.injectedPods == [] && st.networkPolicies == []
      && st.networkInjections == [] && st.exhaustionInjections == []
      && st.phase != PhaseObserving
      && (st.phase == PhaseCompleted ==> st.verdict == VerdictInconclusive)
      && (st.phase == PhaseCleaningUp ==> HasConditionTrue(st, AbortRequested))
  }

  predicate StatusInv(spec: RunSpec, st: Status) {
    TimelineInv(st) && AbortInv(st) && ScenarioInv(spec, st) && DryRunInv(spec, st)
  }

  predicate RunInv(run: Run) {
    StatusInv(Defaulted(run.spec), run.status)
  }

  /** Which runs can have policies in the cluster. */
  predicate MayHavePolicies(spec: RunSpec, st: Status) {
    && spec.scenario.kind == NetworkPartition
    && !spec.safety.dryRun
    && st.phase in {PhaseInjecting, PhaseObserving, PhaseCleaningUp, PhaseFailed}
  }

  predicate PoliciesInv(w: World, n: string)
    requires n in w.runs
  {
    Labelled(w.resources.policies, n) != {} ==> MayHavePolicies(Defaulted(w.runs[n].spec), w.runs[n].status)
  }

  predicate Inv(w: World) {
    forall n <- w.runs :: RunInv(w.runs[n]) && PoliciesInv(w, n)
  }
}
