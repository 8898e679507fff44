/**
 What one reconcile makes of a stored run, phase by phase, written out field by field: the stored status, the
 finalizer and the cluster, for every answer of the world.
 */
module Outcomes {
  import opened Wrappers
  import opened ChaosApi
  import opened Cluster
  import opened Drivers
  import opened Lifecycle
  import opened Execution
  import opened Invariants
  import opened Injections
  import Observers
  import Bookkeeping

  /** The stored form of a time: whole seconds. */
  function Seconds(t: int): int { t - t % 1_000_000_000 }

  predicate Is(st: Status, c: ConditionType, value: bool) {
    c in st.conditions && st.conditions[c] == value
  }

  /** The run has ended like this, at that time. */
  predicate EndsAs(st: Status, phase: Phase, verdict: Verdict, now: int) {
    st.phase == phase && st.verdict == verdict && st.endedAt == Some(Seconds(now))
  }

  /** The reconcile reaches the method of the phase. */
  predicate Serves(w: World, n: string, e: Env) {
    Possible(w, Reconcile(n, e)) && Live(Defaulted(w.runs[n].spec), w.runs[n])
  }

  predicate LeavesChaos(kind: ScenarioType) { kind in {NetworkPartition, NetworkChaos, ResourceExhaustion} }

  /** An ended run, deleted or aborted or not, is left alone with all that it left. */
  lemma EndedRunIsLeftAlone(w: World, n: string, e: Env)
    requires n in w.runs && w.runs[n].status.phase in {PhaseCompleted, PhaseAborted, PhaseFailed}
    ensures Reconciled(w, n, e) == w
  {
    assert w.(runs := w.runs[n := w.runs[n]], resources := w.resources) == w;
  }

  /******* Abort *******/

  /** What a stored abort does. */
  predicate StopsFor(run: Run, st': Status, now: int) {
    var st := run.status;
    var asked := st.conditions[AbortRequested := true];
    if LeavesChaos(run.spec.scenario.kind) && st.phase in {PhaseInjecting, PhaseObserving} then
      st' == st.(phase := PhaseCleaningUp, conditions := asked)
    else
      st' == st.(phase := PhaseAborted, verdict := VerdictInconclusive, endedAt := Some(Seconds(now)), conditions := asked)
  }

  lemma AbortStops(spec: RunSpec, run: Run, now: int, e: Env)
    requires spec.scenario.kind == run.spec.scenario.kind && run.status.phase != PhaseCleaningUp
    requires !IsTerminal(run.status.phase)
    ensures var run' := Aborting(spec, run, now, e);
            run' == run.(status := run'.status) && if e.patchOk(0) then StopsFor(run, run'.status, now) else run' == run
  {
  }

  /**
   An abort that is honoured is on record. A run that may have left chaos behind goes on to clean up, and any other
   run is Aborted and Inconclusive at once; nothing else changes.
   */
  lemma AbortIsHonoured(w: World, n: string, e: Env)
    requires Possible(w, Reconcile(n, e)) && w.runs[n].spec.abort
    requires w.runs[n].status.phase !in {PhaseCleaningUp, PhaseCompleted, PhaseAborted, PhaseFailed}
    requires !(w.runs[n].deleting && w.runs[n].finalizer)
    ensures var run, run' := w.runs[n], Reconciled(w, n, e).runs[n];
            && Reconciled(w, n, e).resources == w.resources
            && run' == run.(status := run'.status)
            && if e.patchOk(0) then Is(run'.status, AbortRequested, true) && StopsFor(run, run'.status, w.clock)
               else run' == run
  {
    AbortStops(Defaulted(w.runs[n].spec), w.runs[n], w.clock, e);
  }

  /******* Pending *******/

  /** The wait for a checkpoint is over, by the probe that has just answered. */
  predicate ProbeIsLate(rest: FlinkRest, now: int, e: Env) {
    now % 1_000_000_000 + e.probeTime > rest.waitTimeout.GetOr(5 * MINUTE)
  }

  /** What a valid run becomes once its start is stored. */
  predicate LeavesPending(run: Run, st': Status, now: int, e: Env) {
    var rest, st := run.spec.observe.rest, run.status;
    && st'.startedAt == Some(Seconds(now))
    && if !rest.requireStableCheckpoint || e.probe == Stable then
         st' == st.(startedAt := st'.startedAt, phase := if e.patchOk(1) then PhaseInjecting else st.phase)
       else if e.probe == NotStable && ProbeIsLate(rest, now, e) && e.patchOk(1) then
         EndsAs(st', PhaseFailed, VerdictFailed, now + e.probeTime) && Is(st', RunFailed, true)
       else
         st' == st.(startedAt := st'.startedAt)
  }

  lemma StartedRunLeavesPending(run: Run, now: int, e: Env)
    ensures var started := run.(status := run.status.(startedAt := Some(Stamp(now))));
            LeavesPending(run, AfterStart(Defaulted(run.spec), started, now, e).status, now, e)
  {
  }

  /** A pending run fails when its spec is invalid, and otherwise proceeds with or without a stable checkpoint. */
  lemma PendingIsServed(w: World, n: string, e: Env)
    requires Serves(w, n, e) && w.runs[n].status.phase in {PhaseUnset, PhasePending}
    ensures var run, run' := w.runs[n], Reconciled(w, n, e).runs[n]; var st' := run'.status;
            && Reconciled(w, n, e).resources == w.resources
            && run' == run.(status := st')
            && (!e.patchOk(0) ==> st' == run.status)
            && (e.patchOk(0) && !Valid(Defaulted(run.spec)) ==>
                  EndsAs(st', PhaseFailed, VerdictFailed, w.clock) && Is(st', RunFailed, true))
            && (e.patchOk(0) && Valid(Defaulted(run.spec)) ==> LeavesPending(run, st', w.clock, e))
  {
    StartedRunLeavesPending(w.runs[n], w.clock, e);
  }

  /******* Injecting *******/

  /** An injection that is on record is not repeated: the run moves on, by the third patch. */
  lemma RecordedInjectionMovesOn(w: World, n: string, e: Env)
    requires Serves(w, n, e) && w.runs[n].status.phase == PhaseInjecting && w.runs[n].status.injectedPods != []
    ensures var run, run' := w.runs[n], Reconciled(w, n, e).runs[n];
            && Reconciled(w, n, e).resources == w.resources
            && run' == if e.patchOk(2)
                       then run.(status := run.status.(phase := PhaseObserving, observingStartedAt := Some(Seconds(w.clock))))
                       else run
  {
  }

  /** The target has to be found. */
  predicate Begins(w: World, n: string, e: Env) {
    Serves(w, n, e) && w.runs[n].status.phase == PhaseInjecting && w.runs[n].status.injectedPods == []
  }

  lemma UnresolvedTargetFails(w: World, n: string, e: Env)
    requires Begins(w, n, e) && e.target.None? && e.patchOk(0)
    ensures var run' := Reconciled(w, n, e).runs[n];
            && Reconciled(w, n, e).resources == w.resources
            && EndsAs(run'.status, PhaseFailed, VerdictFailed, w.clock)
            && Is(run'.status, TargetResolved, false) && Is(run'.status, RunFailed, true)
            && run'.status.injectedPods == []
  {
  }

  lemma DryRunCompletes(w: World, n: string, e: Env)
    requires Begins(w, n, e) && PassesChecks(w.namespace, n, Defaulted(w.runs[n].spec), w.runs, e) && e.patchOk(0)
    requires w.runs[n].spec.safety.dryRun
    ensures var run', target := Reconciled(w, n, e).runs[n], e.target.value;
            && Reconciled(w, n, e).resources == w.resources
            && EndsAs(run'.status, PhaseCompleted, VerdictInconclusive, w.clock)
            && run'.status.selectedPods == target.tmPods && run'.status.injectedPods == []
            && run'.status.targetSummary == Some(TargetSummary(target.platform, target.logicalName))
            && Is(run'.status, SafetyChecksPassed, true)
  {
  }

  /** The driver is called. */
  predicate CallsDriver(w: World, n: string, e: Env) {
    && Begins(w, n, e) && PassesChecks(w.namespace, n, Defaulted(w.runs[n].spec), w.runs, e)
    && !w.runs[n].spec.safety.dryRun
  }

  /** The record of an injection. */
  predicate Records(st: Status, outcome: Outcome, target: ResolvedTarget)
    requires outcome.Injected?
  {
    && st.injectedPods == outcome.injected && st.selectedPods == outcome.selected
    && st.observation.Some? && st.observation.value.countBefore == |target.tmPods|
    && st.targetSummary == Some(TargetSummary(target.platform, target.logicalName))
    && Is(st, SafetyChecksPassed, true) && Is(st, InjectionStarted, true) && Is(st, InjectionCompleted, true)
  }

  /** What is stored of an injection whose first patch succeeds. */
  predicate InjectionIsStored(run: Run, run': Run, outcome: Outcome, target: ResolvedTarget, now: int, e: Env)
    requires outcome.Injected?
  {
    var st' := run'.status;
    var observed := e.patchOk(2) && (LeavesChaos(run.spec.scenario.kind) && !run.finalizer ==> e.patchOk(1));
    && Records(st', outcome, target)
    && st'.phase == (if observed then PhaseObserving else PhaseInjecting)
    && (observed ==> st'.observingStartedAt == Some(Seconds(now)))
    && (run'.finalizer <==> run.finalizer || (LeavesChaos(run.spec.scenario.kind) && e.patchOk(1)))
  }

  lemma RecordedRecords(st: Status, outcome: Outcome, target: ResolvedTarget, phase: Phase, began: Option<int>)
    requires outcome.Injected? && Is(st, SafetyChecksPassed, true)
    requires st.targetSummary == Some(TargetSummary(target.platform, target.logicalName))
    ensures Records(Recorded(st, outcome.selected, outcome.injected, |target.tmPods|), outcome, target)
    ensures Records(Recorded(st, outcome.selected, outcome.injected, |target.tmPods|)
                      .(phase := phase, observingStartedAt := began), outcome, target)
  {
  }

  lemma StoredInjection(
      spec: RunSpec, run: Run, st: Status, outcome: Outcome, target: ResolvedTarget, now: int, e: Env)
    requires run.status.phase == PhaseInjecting && st.phase == PhaseInjecting && e.patchOk(0) && outcome.Injected?
    requires spec.scenario.kind == run.spec.scenario.kind && Is(st, SafetyChecksPassed, true)
    requires st.targetSummary == Some(TargetSummary(target.platform, target.logicalName))
    ensures var recorded := Recorded(st, outcome.selected, outcome.injected, |target.tmPods|);
            InjectionIsStored(run, AfterInjection(spec, run, recorded, now, e), outcome, target, now, e)
  {
    RecordedRecords(st, outcome, target, PhaseObserving, Some(Stamp(now)));
  }

  lemma DriverAnswerIsStored(
      spec: RunSpec, run: Run, step: InjectStep, target: ResolvedTarget, now: int, e: Env)
    requires run.status.phase == PhaseInjecting && step.status.phase == PhaseInjecting && e.patchOk(0)
    requires spec.scenario.kind == run.spec.scenario.kind && Is(step.status, SafetyChecksPassed, true)
    requires step.status.targetSummary == Some(TargetSummary(target.platform, target.logicalName))
    ensures var run' := AfterDriver(spec, run, step, |target.tmPods|, now, e);
            match step.outcome
            case Injected(_, _) => InjectionIsStored(run, run', step.outcome, target, now, e)
            case InjectFailed =>
              EndsAs(run'.status, PhaseFailed, VerdictFailed, now)
              && Is(run'.status, InjectionStarted, false) && Is(run'.status, RunFailed, true)
              && run'.finalizer == run.finalizer
            case InjectPanicked => run' == run
  {
    if step.outcome.Injected? {
      StoredInjection(spec, run, step.status, step.outcome, target, now, e);
    }
  }

  /** What a reconcile stores of the driver's work when its first patch succeeds. */
  lemma InjectingIsServed(w: World, n: string, e: Env)
    requires CallsDriver(w, n, e) && e.patchOk(0)
    ensures var run, run' := w.runs[n], Reconciled(w, n, e).runs[n]; var step := DriverStep(w, n, e);
            && Reconciled(w, n, e).resources == step.resources
            && match step.outcome
               case Injected(_, _) => InjectionIsStored(run, run', step.outcome, e.target.value, w.clock, e)
               case InjectFailed =>
                 EndsAs(run'.status, PhaseFailed, VerdictFailed, w.clock)
                 && Is(run'.status, InjectionStarted, false) && Is(run'.status, RunFailed, true)
                 && run'.finalizer == run.finalizer
               case InjectPanicked => run' == run
  {
    var run, spec, target, step := w.runs[n], Defaulted(w.runs[n].spec), e.target.value, DriverStep(w, n, e);
    assert Lifecycle.Step(w, n, e) == Local(AfterDriver(spec, run, step, |target.tmPods|, w.clock, e), step.resources);
    InjectKeepsTheRest(n, spec, Cleared(run.status, target), target, w.resources, w.clock, e);
    DriverAnswerIsStored(spec, run, step, target, w.clock, e);
  }

  /** Without that patch only the cluster has changed. */
  lemma LostInjectionIsNotStored(w: World, n: string, e: Env)
    requires CallsDriver(w, n, e) && !e.patchOk(0)
    ensures Reconciled(w, n, e).runs == w.runs && Reconciled(w, n, e).resources == DriverStep(w, n, e).resources
  {
    var run, spec, target, step := w.runs[n], Defaulted(w.runs[n].spec), e.target.value, DriverStep(w, n, e);
    assert Lifecycle.Step(w, n, e) == Local(AfterDriver(spec, run, step, |target.tmPods|, w.clock, e), step.resources);
    assert AfterDriver(spec, run, step, |target.tmPods|, w.clock, e) == run;
  }

  /******* Observing *******/

  /** When the observation window began. */
  function Began(st: Status): Option<int> {
    if st.observingStartedAt.Some? then st.observingStartedAt else st.startedAt
  }

  predicate WindowIsOver(spec: RunSpec, st: Status, now: int) {
    Began(st).Some? && now > Began(st).value + spec.observe.timeout
  }

  predicate HasRecovered(st: Status) { st.observation.Some? && st.observation.value.recoveredAt.Some? }

  /** The end of the window decides the verdict; only a run without chaos to remove ends at once. */
  predicate ClosesWindow(kind: ScenarioType, st: Status, st': Status, now: int) {
    if !LeavesChaos(kind) then
      EndsAs(st', PhaseCompleted, if HasRecovered(st) then VerdictPassed else VerdictFailed, now)
    else
      && st' == st.(phase := PhaseCleaningUp, verdict := st'.verdict)
      && (st'.verdict == VerdictPassed <==> kind == ResourceExhaustion || HasRecovered(st))
      && (st'.verdict != VerdictPassed ==>
            st'.verdict == if st.replacementObserved then VerdictInconclusive else VerdictFailed)
  }

  /** A partition's policies are held for their duration, and then removed. */
  predicate HoldsPartition(d: int, st: Status, st': Status, now: int)
    requires st.observingStartedAt.Some?
  {
    if now >= st.observingStartedAt.value + d then
      st' == st.(phase := PhaseCleaningUp, verdict := if st.replacementObserved then VerdictPassed else VerdictInconclusive)
    else st' == st
  }

  /** `d` in whole seconds, towards zero. */
  predicate InSeconds(d: int, s: int) {
    if d >= 0 then 0 <= d - s * 1_000_000_000 < 1_000_000_000 else 0 <= s * 1_000_000_000 - d < 1_000_000_000
  }

  /** A poll stores what it has seen; the first one that finds every replacement ready ends the observation. */
  predicate StoresPoll(kind: ScenarioType, st: Status, st': Status, s: Observers.Signals, now: int) {
    && st'.replacementObserved == s.replaced && st'.observation.Some?
    && var before, o := st.observation.GetOr(Observation(0, 0, None, None)), st'.observation.value;
       && o.countAfter == s.countAfter
       && o.countBefore == (if before.countBefore != 0 then before.countBefore else s.countBefore)
       && if s.ready && !HasRecovered(st) then
            && o.recoveredAt == Some(Seconds(now)) && Is(st', RecoveryObserved, true)
            && (Began(st).Some? ==> o.recoverySeconds.Some? && InSeconds(now - Began(st).value, o.recoverySeconds.value))
            && if LeavesChaos(kind) then st'.phase == PhaseCleaningUp && st'.verdict == st.verdict
               else EndsAs(st', PhaseCompleted, VerdictPassed, now)
          else
            && st' == st.(replacementObserved := s.replaced, observation := st'.observation)
            && o.recoveredAt == before.recoveredAt && o.recoverySeconds == before.recoverySeconds
  }

  /** The status an observing reconcile writes, given what the observer would answer. */
  predicate Observes(spec: RunSpec, st: Status, st': Status, poll: Observers.Poll, now: int) {
    var kind, held := spec.scenario.kind, spec.scenario.network;
    if !spec.observe.enabled then
      if LeavesChaos(kind) then st' == st.(phase := PhaseCleaningUp) else EndsAs(st', PhaseCompleted, VerdictPassed, now)
    else if WindowIsOver(spec, st, now) then ClosesWindow(kind, st, st', now)
    else if kind == NetworkPartition && held.Some? && held.value.duration.Some? && st.observingStartedAt.Some? then
      HoldsPartition(held.value.duration.value, st, st', now)
    else if poll.Err? then st' == st
    else StoresPoll(kind, st, st', poll.value, now)
  }

  lemma PollIsStored(spec: RunSpec, st: Status, s: Observers.Signals, now: int)
    ensures StoresPoll(spec.scenario.kind, st, Polled(spec, st, s, now), s, now)
  {
  }

  lemma WindowIsClosed(spec: RunSpec, st: Status, now: int)
    ensures ClosesWindow(spec.scenario.kind, st, TimedOut(spec, st, now), now)
  {
  }

  lemma ObservationGoesOn(spec: RunSpec, st: Status, poll: Observers.Poll, now: int)
    ensures Observes(spec, st, AfterObserving(spec, st, poll, now), poll, now)
  {
    WindowIsClosed(spec, st, now);
    if poll.Ok? {
      PollIsStored(spec, st, poll.value, now);
    }
  }

  lemma ObservingIsServed(w: World, n: string, e: Env)
    requires Serves(w, n, e) && w.runs[n].status.phase == PhaseObserving
    ensures var run, run', spec := w.runs[n], Reconciled(w, n, e).runs[n], Defaulted(w.runs[n].spec);
            && Reconciled(w, n, e).resources == w.resources
            && run' == run.(status := run'.status)
            && if e.patchOk(0)
               then Observes(spec, run.status, run'.status, PollOf(spec, run.status, w.resources, e), w.clock)
               else run' == run
  {
    var run, spec := w.runs[n], Defaulted(w.runs[n].spec);
    ObservationGoesOn(spec, run.status, PollOf(spec, run.status, w.resources, e), w.clock);
    assert Lifecycle.Step(w, n, e) == Local(Observing(spec, run, w.resources, w.clock, e), w.resources);
  }

  /******* CleaningUp *******/

  /** Five minutes after the longest observation counted from the start of the run. */
  predicate CleanupIsLate(spec: RunSpec, st: Status, now: int) {
    st.startedAt.Some? && now > st.startedAt.value + spec.observe.timeout + 5 * MINUTE
  }

  /** A late cleanup is given up, whatever is left. */
  lemma LateCleanupFails(w: World, n: string, e: Env)
    requires Serves(w, n, e) && w.runs[n].status.phase == PhaseCleaningUp
    requires CleanupIsLate(Defaulted(w.runs[n].spec), w.runs[n].status, w.clock)
    ensures var run, run' := w.runs[n], Reconciled(w, n, e).runs[n];
            && Reconciled(w, n, e).resources == w.resources
            && run' == run.(status := run'.status)
            && if e.patchOk(0)
               then EndsAs(run'.status, PhaseFailed, VerdictFailed, w.clock) && Is(run'.status, NetworkChaosCleanedUp, false)
               else run' == run
  {
  }

  /** How a cleaned-up run ends. */
  predicate Closes(st: Status, st': Status, now: int) {
    && Is(st', NetworkChaosCleanedUp, true)
    && if Is(st, AbortRequested, true) then EndsAs(st', PhaseAborted, VerdictInconclusive, now)
       else EndsAs(st', PhaseCompleted, if st.verdict == NoVerdict then VerdictPassed else st.verdict, now)
  }

  lemma CleanedUpStatusCloses(st: Status, c: CleanupStep, now: int)
    requires KeepsTheRest(st, c.status) && c.ok && CleanupComplete(c.status)
    ensures Closes(st, AfterCleanup(c, now), now)
  {
  }

  lemma UnfinishedStatusStays(st: Status, c: CleanupStep, now: int)
    requires KeepsTheRest(st, c.status) && !(c.ok && CleanupComplete(c.status))
    ensures KeepsTheRest(st, AfterCleanup(c, now)) && AfterCleanup(c, now).phase == st.phase
  {
  }

  /**
   In time, a reconcile of a reachable run ends the cleanup exactly when the driver's calls are answered, the chaos
   is over and the first patch succeeds; the finalizer goes with the second. Else the run keeps cleaning up.
   */
  lemma CleaningUpIsServed(w: World, n: string, e: Env)
    requires Inv(w) && Serves(w, n, e) && w.runs[n].status.phase == PhaseCleaningUp
    requires !CleanupIsLate(Defaulted(w.runs[n].spec), w.runs[n].status, w.clock)
    ensures var run, run', spec := w.runs[n], Reconciled(w, n, e).runs[n], Defaulted(w.runs[n].spec);
            var done := Bookkeeping.CleanupAnswers(spec, run.status, e)
                        && Bookkeeping.ChaosIsOver(spec, run.status, w.resources, w.clock);
            if done && e.patchOk(0) then
              Closes(run.status, run'.status, w.clock) && (run'.finalizer <==> run.finalizer && !e.patchOk(1))
            else
              && run'.status.phase == PhaseCleaningUp && run'.finalizer == run.finalizer
              && run'.status.verdict == run.status.verdict && run'.status.conditions == run.status.conditions
  {
    var run, spec := w.runs[n], Defaulted(w.runs[n].spec);
    var c := CleanUp(spec, run.status, w.resources, w.clock, e);
    assert RunInv(run);
    Bookkeeping.CleanUpOkIff(spec, run.status, w.resources, w.clock, e);
    CleanUpKeepsTheRest(n, spec, run.status, w.resources, w.clock, e);
    if Bookkeeping.CleanupAnswers(spec, run.status, e) {
      Bookkeeping.CleanedUpIffOver(spec, run.status, w.resources, w.clock, e);
    }
    CleanupIsFinished(spec, run, w.resources, w.clock, e);
    assert Lifecycle.Step(w, n, e) == CleaningUp(spec, run, w.resources, w.clock, e);
  }

  lemma CleanupIsFinished(spec: RunSpec, run: Run, r: Resources, now: int, e: Env)
    requires run.status.phase == PhaseCleaningUp && !CleanupIsLate(spec, run.status, now)
    requires KeepsTheRest(run.status, CleanUp(spec, run.status, r, now, e).status)
    ensures var c, run' := CleanUp(spec, run.status, r, now, e), CleaningUp(spec, run, r, now, e).run;
            if c.ok && CleanupComplete(c.status) && e.patchOk(0) then
              Closes(run.status, run'.status, now) && (run'.finalizer <==> run.finalizer && !e.patchOk(1))
            else
              && run'.status.phase == PhaseCleaningUp && run'.finalizer == run.finalizer
              && run'.status.verdict == run.status.verdict && run'.status.conditions == run.status.conditions
  {
    var c := CleanUp(spec, run.status, r, now, e);
    if c.ok && CleanupComplete(c.status) {
      CleanedUpStatusCloses(run.status, c, now);
    } else {
      UnfinishedStatusStays(run.status, c, now);
    }
  }
}
