/**
 What one reconcile does to the stored run and to the cluster, as a function of what the world
 answers. The class in Reconciler.dfy is proved to do exactly this.
 */
module Lifecycle {
  import opened Wrappers
  import opened ChaosApi
  import opened Cluster
  import opened Drivers
  import Partition
  import Containers
  import PodKill
  import Safety
  import Observers

  const CLEANUP_GRACE: int := 5 * MINUTE

  /** The stored run and the cluster after a reconcile. */
  datatype Local = Local(run: Run, resources: Resources)

  /******* Changes to a status *******/

  function SetCondition(st: Status, c: ConditionType, value: bool): Status {
    st.(conditions := st.conditions[c := value])
  }

  predicate HasConditionTrue(st: Status, c: ConditionType) {
    c in st.conditions && st.conditions[c]
  }

  function End(st: Status, phase: Phase, verdict: Verdict, now: int): Status {
    st.(phase := phase, verdict := verdict, endedAt := Some(Stamp(now)))
  }

  function FinalizeRun(st: Status, verdict: Verdict, now: int): Status { End(st, PhaseCompleted, verdict, now) }

  function FailRun(st: Status, now: int): Status { End(st, PhaseFailed, VerdictFailed, now) }

  function AbortRun(st: Status, now: int): Status { End(st, PhaseAborted, VerdictInconclusive, now) }

  /** FailRun together with the conditions that go with it. */
  function Rejected(st: Status, cause: ConditionType, now: int): Status {
    SetCondition(SetCondition(FailRun(st, now), cause, false), RunFailed, true)
  }

  function Patched(run: Run, st: Status, ok: bool): Run {
    if ok then run.(status := st) else run
  }

  /******* Drivers by scenario *******/

  function Inject(name: string, spec: RunSpec, st: Status, target: ResolvedTarget, r: Resources, now: int, e: Env)
    : InjectStep
  {
    match spec.scenario.kind
    case TaskManagerPodKill => InjectPodKill(spec, st, target, r, e)
    case NetworkPartition => Partition.InjectPartition(name, spec.scenario.network, st, target, r, e)
    case NetworkChaos => Containers.InjectNetworkChaos(name, spec.scenario.network, st, target, r, now, e)
    case ResourceExhaustion => Containers.InjectExhaustion(name, spec.scenario.exhaustion, st, target, r, now, e)
    case UnsetScenario => InjectStep(st, r, InjectFailed)
    case UnsupportedScenario => InjectStep(st, r, InjectFailed)
  }

  function InjectPodKill(spec: RunSpec, st: Status, target: ResolvedTarget, r: Resources, e: Env): InjectStep {
    match PodKill.Selected(spec.scenario.selection, target.tmPods, e.swaps)
    case None => InjectStep(st, r, InjectFailed)
    case Some(selected) =>
      var d := PodKill.Deleted(r.pods, selected, e.deleteFault);
      InjectStep(st, r.(pods := d.pods), if d.ok then Injected(selected, d.injected) else InjectFailed)
  }

  function CleanUp(spec: RunSpec, st: Status, r: Resources, now: int, e: Env): CleanupStep {
    match spec.scenario.kind
    case NetworkPartition => Partition.CleanUpPartition(st, r, e)
    case NetworkChaos => Containers.CleanUpNetworkChaos(spec.scenario.network, st, r, now, e)
    case ResourceExhaustion => Containers.CleanUpExhaustion(spec.scenario.exhaustion, st, r, now, e)
    case _ => CleanupStep(st, r, true)
  }

  /******* Deletion and abort *******/

  function Deleting(spec: RunSpec, run: Run, r: Resources, now: int, e: Env): Local {
    var c := CleanUp(spec, run.status, r, now, e);
    Local(if c.ok && e.patchOk(0) then run.(finalizer := false) else run, c.resources)
  }

  function Aborting(spec: RunSpec, run: Run, now: int, e: Env): Run {
    var st := SetCondition(run.status, AbortRequested, true);
    if NeedsCleanup(spec.scenario.kind) && run.status.phase != PhaseUnset && run.status.phase != PhasePending
    then Patched(run, st.(phase := PhaseCleaningUp), e.patchOk(0))
    else Patched(run, AbortRun(st, now), e.patchOk(0))
  }

  /******* Pending *******/

  /** Whether an unstable checkpoint ends the run instead of being polled again. */
  predicate CheckpointWaitExpired(spec: RunSpec, startedAt: int, now: int) {
    spec.observe.rest.waitTimeout.Some? && now > startedAt + spec.observe.rest.waitTimeout.value
  }

  function Pending(spec: RunSpec, run: Run, now: int, e: Env): Run {
    if !Valid(spec) then
      Patched(run, SetCondition(FailRun(run.status, now), RunFailed, true), e.patchOk(0))
    else if !e.patchOk(0) then run
    else AfterStart(spec, run.(status := run.status.(startedAt := Some(Stamp(now)))), now, e)
  }

  /** The start is stamped and stored. */
  function AfterStart(spec: RunSpec, run: Run, now: int, e: Env): Run {
    if !spec.observe.rest.requireStableCheckpoint || e.probe == Stable then
      Patched(run, run.status.(phase := PhaseInjecting), e.patchOk(1))
    else if e.probe == NotStable && CheckpointWaitExpired(spec, Stamp(now), now + e.probeTime) then
      Patched(run, SetCondition(FailRun(run.status, now + e.probeTime), RunFailed, true), e.patchOk(1))
    else run
  }

  /******* Injecting *******/

  function ToObserving(run: Run, now: int, ok: bool): Run {
    Patched(run, run.status.(observingStartedAt := Some(Stamp(now)), phase := PhaseObserving), ok)
  }

  /** The status once the target is resolved and every check has passed. */
  function Cleared(st: Status, target: ResolvedTarget): Status {
    SetCondition(SetCondition(st, TargetResolved, true), SafetyChecksPassed, true)
      .(targetSummary := Some(TargetSummary(target.platform, target.logicalName)))
  }

  /** The status written once the driver has injected. */
  function Recorded(st: Status, selected: seq<string>, injected: seq<string>, count: nat): Status {
    SetCondition(SetCondition(st, InjectionStarted, true), InjectionCompleted, true)
      .(selectedPods := selected, injectedPods := injected,
        observation := Some(st.observation.GetOr(Observation(0, 0, None, None)).(countBefore := count)))
  }

  function AfterInjection(spec: RunSpec, run: Run, recorded: Status, now: int, e: Env): Run {
    if !e.patchOk(0) then run
    else
      var run1 := run.(status := recorded);
      if NeedsCleanup(spec.scenario.kind) && !run.finalizer then
        if !e.patchOk(1) then run1 else ToObserving(run1.(finalizer := true), now, e.patchOk(2))
      else
        ToObserving(run1, now, e.patchOk(2))
  }

  /** The target is resolved, the checks have passed and this is no dry run. */
  function AfterDriver(spec: RunSpec, run: Run, step: InjectStep, count: nat, now: int, e: Env): Run {
    match step.outcome
    case InjectPanicked => run
    case InjectFailed => Patched(run, Rejected(step.status, InjectionStarted, now), e.patchOk(0))
    case Injected(selected, injected) =>
      AfterInjection(spec, run, Recorded(step.status, selected, injected, count), now, e)
  }

  /** The status of a run that is not injected: nothing to resolve, a check that fails, or a dry run. */
  function NotInjected(st: Status, target: Option<ResolvedTarget>, rejected: bool, now: int): Status {
    match target
    case None => Rejected(st, TargetResolved, now)
    case Some(t) =>
      if rejected then Rejected(SetCondition(st, TargetResolved, true), SafetyChecksPassed, now)
      else FinalizeRun(Cleared(st, t).(selectedPods := t.tmPods), VerdictInconclusive, now)
  }

  /** The checks pass for the resolved target. */
  predicate PassesChecks(
      namespace: string, name: string, spec: RunSpec, peers: map<string, Run>, e: Env)
  {
    e.target.Some? && Safety.Check(namespace, name, spec, e.target.value, peers, e.listRunsOk).None?
  }

  function Injecting(
      namespace: string, name: string, spec: RunSpec, run: Run, peers: map<string, Run>, r: Resources, now: int, e: Env)
    : Local
  {
    if run.status.injectedPods != [] then Local(ToObserving(run, now, e.patchOk(2)), r)
    else if !PassesChecks(namespace, name, spec, peers, e) || spec.safety.dryRun then
      var rejected := !PassesChecks(namespace, name, spec, peers, e);
      Local(Patched(run, NotInjected(run.status, e.target, rejected, now), e.patchOk(0)), r)
    else
      var step := Inject(name, spec, Cleared(run.status, e.target.value), e.target.value, r, now, e);
      Local(AfterDriver(spec, run, step, |e.target.value.tmPods|, now, e), step.resources)
  }

  /******* Observing *******/

  function WholeSeconds(d: int): int {
    if d >= 0 then d / SECOND else -((-d) / SECOND)
  }

  function ObserveAnchor(st: Status): Option<int> {
    if st.observingStartedAt.Some? then st.observingStartedAt else st.startedAt
  }

  predicate RecoverySeen(st: Status) {
    st.observation.Some? && st.observation.value.recoveredAt.Some?
  }

  /** The observation window is over. */
  function TimedOut(spec: RunSpec, st: Status, now: int): Status {
    var kind := spec.scenario.kind;
    if !NeedsCleanup(kind) then
      FinalizeRun(st, if RecoverySeen(st) then VerdictPassed else VerdictFailed, now)
    else
      st.(verdict := if kind == ResourceExhaustion || RecoverySeen(st) then VerdictPassed
                     else if st.replacementObserved then VerdictInconclusive
                     else VerdictFailed,
          phase := PhaseCleaningUp)
  }

  /** A poll has answered. */
  function Polled(spec: RunSpec, st: Status, s: Observers.Signals, now: int): Status {
    var o := st.observation.GetOr(Observation(0, 0, None, None));
    var o1 := o.(countBefore := if o.countBefore == 0 then s.countBefore else o.countBefore, countAfter := s.countAfter);
    var st1 := st.(observation := Some(o1), replacementObserved := s.replaced);
    if !s.ready || o1.recoveredAt.Some? then st1
    else
      var o2 := o1.(recoveredAt := Some(Stamp(now)),
                    recoverySeconds := match ObserveAnchor(st)
                                       case Some(t) => Some(WholeSeconds(now - t))
                                       case None => o1.recoverySeconds);
      var st2 := SetCondition(st1.(observation := Some(o2)), RecoveryObserved, true);
      if NeedsCleanup(spec.scenario.kind) then st2.(phase := PhaseCleaningUp) else FinalizeRun(st2, VerdictPassed, now)
  }

  predicate WindowElapsed(spec: RunSpec, st: Status, now: int) {
    ObserveAnchor(st).Some? && now - ObserveAnchor(st).value > spec.observe.timeout
  }

  /** A partition with a duration is held for that long and is never polled. */
  predicate HeldForDuration(spec: RunSpec, st: Status) {
    && spec.scenario.kind == NetworkPartition
    && spec.scenario.network.Some? && spec.scenario.network.value.duration.Some?
    && st.observingStartedAt.Some?
  }

  /** What the Observing phase makes of the status, given the answer of the observer if it is asked. */
  function AfterObserving(spec: RunSpec, st: Status, poll: Observers.Poll, now: int): Status {
    if !spec.observe.enabled then
      if NeedsCleanup(spec.scenario.kind) then st.(phase := PhaseCleaningUp) else FinalizeRun(st, VerdictPassed, now)
    else if WindowElapsed(spec, st, now) then TimedOut(spec, st, now)
    else if HeldForDuration(spec, st) then
      if now - st.observingStartedAt.value >= spec.scenario.network.value.duration.value then
        st.(verdict := if st.replacementObserved then VerdictPassed else VerdictInconclusive, phase := PhaseCleaningUp)
      else st
    else
      match poll
      case Err(_) => st
      case Ok(s) => Polled(spec, st, s, now)
  }

  function PollOf(spec: RunSpec, st: Status, r: Resources, e: Env): Observers.Poll {
    Observers.Observed(spec.observe, st.injectedPods, st.observation, e.target, r.pods, e)
  }

  function Observing(spec: RunSpec, run: Run, r: Resources, now: int, e: Env): Run {
    Patched(run, AfterObserving(spec, run.status, PollOf(spec, run.status, r, e), now), e.patchOk(0))
  }

  /******* CleaningUp *******/

  predicate AllCleanedUp(recs: seq<ContainerRecord>) {
    forall i :: 0 <= i < |recs| ==> recs[i].cleanedUp
  }

  predicate CleanupComplete(st: Status) {
    st.networkPolicies == [] && AllCleanedUp(st.networkInjections) && AllCleanedUp(st.exhaustionInjections)
  }

  predicate CleanupExpired(spec: RunSpec, st: Status, now: int) {
    st.startedAt.Some? && now > st.startedAt.value + spec.observe.timeout + CLEANUP_GRACE
  }

  /** The final status of a cleaned-up run. */
  function Closed(st: Status, now: int): Status {
    var done := SetCondition(st, NetworkChaosCleanedUp, true);
    if HasConditionTrue(done, AbortRequested) then AbortRun(done, now)
    else FinalizeRun(done, if done.verdict == NoVerdict then VerdictPassed else done.verdict, now)
  }

  /** The status a CleaningUp reconcile writes, given what the driver's Cleanup did. */
  function AfterCleanup(c: CleanupStep, now: int): Status {
    if c.ok && CleanupComplete(c.status) then Closed(c.status, now) else c.status
  }

  function CleaningUp(spec: RunSpec, run: Run, r: Resources, now: int, e: Env): Local {
    var st := run.status;
    if CleanupExpired(spec, st, now) then
      Local(Patched(run, FailRun(SetCondition(st, NetworkChaosCleanedUp, false), now), e.patchOk(0)), r)
    else
      var c := CleanUp(spec, st, r, now, e);
      var closing := c.ok && CleanupComplete(c.status);
      var run1 := Patched(run, AfterCleanup(c, now), e.patchOk(0));
      Local(if closing && e.patchOk(0) && e.patchOk(1) then run1.(finalizer := false) else run1, c.resources)
  }

  /******* One reconcile *******/

  function StepWith(spec: RunSpec, run: Run, w: World, name: string, e: Env): Local {
    var r, now := w.resources, w.clock;
    if IsTerminal(run.status.phase) then Local(run, r)
    else if run.deleting && run.finalizer then Deleting(spec, run, r, now, e)
    else if spec.abort && run.status.phase != PhaseCleaningUp then Local(Aborting(spec, run, now, e), r)
    else
      match run.status.phase
      case PhaseUnset => Local(Pending(spec, run, now, e), r)
      case PhasePending => Local(Pending(spec, run, now, e), r)
      case PhaseInjecting => Injecting(w.namespace, name, spec, run, w.runs, r, now, e)
      case PhaseObserving => Local(Observing(spec, run, r, now, e), r)
      case PhaseCleaningUp => CleaningUp(spec, run, r, now, e)
      case _ => Local(run, r)
  }

  function Step(w: World, name: string, e: Env): Local
    requires name in w.runs
  {
    StepWith(Defaulted(w.runs[name].spec), w.runs[name], w, name, e)
  }

  /** A name that is not stored is skipped. */
  function Reconciled(w: World, name: string, e: Env): World {
    if name !in w.runs then w
    else
      var l := Step(w, name, e);
      w.(runs := w.runs[name := l.run], resources := l.resources)
  }
}
