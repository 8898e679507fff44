/** The verdict of a run is a function of the whole history of its polls. */
module Verdicts {
  import opened ChaosApi
  import opened Cluster
  import opened Drivers
  import opened Lifecycle
  import opened Execution
  import opened Invariants
  import opened Guarantees
  import opened Observers

  /******* The history of polls *******/

  /** The observer is asked in this reconcile. */
  predicate Asks(spec: RunSpec, run: Run, now: int) {
    && run.status.phase == PhaseObserving && Live(spec, run)
    && spec.observe.enabled && !WindowElapsed(spec, run.status, now) && !HeldForDuration(spec, run.status)
  }

  /** The answer of the observer in this reconcile, if it was asked, answered, and the result was persisted. */
  function PersistedPolls(spec: RunSpec, run: Run, w: World, e: Env): seq<Signals> {
    if Asks(spec, run, w.clock) && e.patchOk(0) then
      match PollOf(spec, run.status, w.resources, e)
      case Ok(s) => [s]
      case Err(_) => []
    else []
  }

  function PollsAt(w: World, ev: Event, n: string): seq<Signals> {
    if ev.Reconcile? && ev.name == n && Possible(w, ev)
    then PersistedPolls(Defaulted(w.runs[n].spec), w.runs[n], w, ev.e)
    else []
  }

  function Polls(w: World, evs: seq<Event>, n: string): seq<Signals> {
    if evs == [] then []
    else Polls(w, evs[..|evs| - 1], n) + PollsAt(Exec(w, evs[..|evs| - 1]), evs[|evs| - 1], n)
  }

  predicate SawReady(polls: seq<Signals>) {
    exists i :: 0 <= i < |polls| && polls[i].ready
  }

  predicate LastReplaced(polls: seq<Signals>) {
    polls != [] && polls[|polls| - 1].replaced
  }

  /** The verdict of a completed, observed run of one of the scenarios that are polled. */
  function Expected(kind: ScenarioType, polls: seq<Signals>): Verdict {
    if kind == ResourceExhaustion || SawReady(polls) then VerdictPassed
    else if kind == NetworkChaos && LastReplaced(polls) then VerdictInconclusive
    else VerdictFailed
  }

  /** What a verdict may be, given the polls; `verdict` is the one the run will end with unless it is aborted. */
  predicate Fits(spec: RunSpec, verdict: Verdict, polls: seq<Signals>) {
    var kind := spec.scenario.kind;
    if !spec.observe.enabled then verdict == VerdictPassed && polls == []
    else if kind == NetworkPartition then (verdict == VerdictInconclusive || verdict == VerdictFailed) && polls == []
    else verdict == Expected(kind, polls)
  }

  function FinalVerdict(st: Status): Verdict {
    if st.verdict == NoVerdict then VerdictPassed else st.verdict
  }

  predicate VerdictInv(spec: RunSpec, st: Status, polls: seq<Signals>) {
    && (!Late(st.phase) ==> polls == [] && !st.replacementObserved)
    && (st.phase == PhaseObserving ==>
          !SawReady(polls) && st.replacementObserved == LastReplaced(polls)
          && (spec.scenario.kind == NetworkPartition || !spec.observe.enabled ==> polls == []))
    && (st.phase == PhaseCleaningUp && !HasConditionTrue(st, AbortRequested) ==> Fits(spec, FinalVerdict(st), polls))
    && (st.phase == PhaseCompleted && !spec.safety.dryRun ==> Fits(spec, st.verdict, polls))
  }

  /******* Keeping it *******/

  lemma AfterPollFits(spec: RunSpec, st: Status, polls: seq<Signals>, s: Signals, now: int)
    requires StatusInv(spec, st) && st.phase == PhaseObserving && VerdictInv(spec, st, polls)
    requires spec.observe.enabled && spec.scenario.kind != NetworkPartition
    ensures VerdictInv(spec, Polled(spec, st, s, now), polls + [s])
  {
    var polls' := polls + [s];
    assert polls'[|polls|] == s;
    assert forall i :: 0 <= i < |polls| ==> polls'[i] == polls[i];
  }

  lemma TimedOutFits(spec: RunSpec, st: Status, polls: seq<Signals>, now: int)
    requires StatusInv(spec, st) && st.phase == PhaseObserving && VerdictInv(spec, st, polls)
    requires spec.observe.enabled
    ensures VerdictInv(spec, TimedOut(spec, st, now), polls)
  {
  }

  lemma AfterObservingFits(spec: RunSpec, run: Run, w: World, polls: seq<Signals>, e: Env)
    requires StatusInv(spec, run.status) && VerdictInv(spec, run.status, polls)
    requires run.status.phase == PhaseObserving && Live(spec, run) && e.patchOk(0)
    ensures var st' := AfterObserving(spec, run.status, PollOf(spec, run.status, w.resources, e), w.clock);
            VerdictInv(spec, st', polls + PersistedPolls(spec, run, w, e))
  {
    var st, now := run.status, w.clock;
    assert polls + [] == polls;
    if !spec.observe.enabled {
    } else if WindowElapsed(spec, st, now) {
      TimedOutFits(spec, st, polls, now);
    } else if HeldForDuration(spec, st) {
    } else {
      assert spec.scenario.kind != NetworkPartition;
      var poll := PollOf(spec, st, w.resources, e);
      if poll.Ok? {
        AfterPollFits(spec, st, polls, poll.value, now);
      }
    }
  }

  lemma ExpiryFits(spec: RunSpec, st: Status, polls: seq<Signals>, now: int)
    ensures VerdictInv(spec, FailRun(SetCondition(st, NetworkChaosCleanedUp, false), now), polls)
  {
  }

  lemma CleaningUpFits(spec: RunSpec, run: Run, w: World, n: string, polls: seq<Signals>, e: Env)
    requires VerdictInv(spec, run.status, polls)
    requires run.status.phase == PhaseCleaningUp && Enumerates(e.policyOrder, Labelled(w.resources.policies, n))
    ensures VerdictInv(spec, CleaningUp(spec, run, w.resources, w.clock, e).run.status, polls)
  {
    if CleanupExpired(spec, run.status, w.clock) {
      ExpiryFits(spec, run.status, polls, w.clock);
    } else {
      CleanUpKeepsTheRest(n, spec, run.status, w.resources, w.clock, e);
      AfterCleanupFits(spec, run.status, CleanUp(spec, run.status, w.resources, w.clock, e), polls, w.clock);
    }
  }

  lemma AfterCleanupFits(spec: RunSpec, st: Status, c: CleanupStep, polls: seq<Signals>, now: int)
    requires VerdictInv(spec, st, polls) && st.phase == PhaseCleaningUp && KeepsTheRest(st, c.status)
    ensures VerdictInv(spec, AfterCleanup(c, now), polls)
  {
  }

  /** Before the first poll there is nothing to account for. */
  lemma NoPollsYet(spec: RunSpec, st: Status)
    requires !st.replacementObserved
    requires st.phase != PhaseCleaningUp && (st.phase == PhaseCompleted ==> spec.safety.dryRun)
    ensures VerdictInv(spec, st, [])
  {
  }

  lemma InjectingFits(spec: RunSpec, run: Run, w: World, n: string, e: Env)
    requires !run.status.replacementObserved && run.status.phase == PhaseInjecting
    ensures VerdictInv(spec, Injecting(w.namespace, n, spec, run, w.runs, w.resources, w.clock, e).run.status, [])
  {
    var st, r, now := run.status, w.resources, w.clock;
    var st' := Injecting(w.namespace, n, spec, run, w.runs, r, now, e).run.status;
    if st.injectedPods == [] && PassesChecks(w.namespace, n, spec, w.runs, e) && !spec.safety.dryRun {
      var target := e.target.value;
      var step := Inject(n, spec, Cleared(st, target), target, r, now, e);
      InjectKeepsTheRest(n, spec, Cleared(st, target), target, r, now, e);
      PhasesAfterDriver(spec, run, step, |target.tmPods|, now, e);
      AfterDriverFits(spec, run, step, |target.tmPods|, now, e);
    } else {
      NoPollsYet(spec, st');
    }
  }

  lemma AfterDriverFits(spec: RunSpec, run: Run, step: InjectStep, count: nat, now: int, e: Env)
    requires !run.status.replacementObserved && run.status.phase == PhaseInjecting
    requires step.status.phase == PhaseInjecting && !step.status.replacementObserved
    ensures VerdictInv(spec, AfterDriver(spec, run, step, count, now, e).status, [])
  {
    PhasesAfterDriver(spec, run, step, count, now, e);
    NoPollsYet(spec, AfterDriver(spec, run, step, count, now, e).status);
  }

  lemma EarlyStepFits(spec: RunSpec, run: Run, now: int, e: Env)
    requires !run.status.replacementObserved && Early(run.status.phase)
    ensures VerdictInv(spec, Pending(spec, run, now, e).status, [])
  {
    NoPollsYet(spec, Pending(spec, run, now, e).status);
  }

  /** A step that does not reach the observer. */
  lemma QuietStepFits(spec: RunSpec, run: Run, w: World, n: string, polls: seq<Signals>, e: Env)
    requires StatusInv(spec, run.status) && VerdictInv(spec, run.status, polls)
    requires Enumerates(e.policyOrder, Labelled(w.resources.policies, n))
    requires run.status.phase != PhaseObserving || !Live(spec, run)
    ensures VerdictInv(spec, StepWith(spec, run, w, n, e).run.status, polls)
  {
    if !Live(spec, run) {
    } else if run.status.phase == PhaseInjecting {
      InjectingFits(spec, run, w, n, e);
    } else if run.status.phase == PhaseCleaningUp {
      CleaningUpFits(spec, run, w, n, polls, e);
    } else {
      EarlyStepFits(spec, run, w.clock, e);
    }
  }

  lemma ObservingStepFits(spec: RunSpec, run: Run, w: World, n: string, polls: seq<Signals>, e: Env)
    requires StatusInv(spec, run.status) && VerdictInv(spec, run.status, polls)
    requires run.status.phase == PhaseObserving && Live(spec, run)
    ensures VerdictInv(spec, StepWith(spec, run, w, n, e).run.status, polls + PersistedPolls(spec, run, w, e))
  {
    assert polls + [] == polls;
    if e.patchOk(0) {
      AfterObservingFits(spec, run, w, polls, e);
    }
  }

  lemma StepFits(spec: RunSpec, run: Run, w: World, n: string, polls: seq<Signals>, e: Env)
    requires StatusInv(spec, run.status) && VerdictInv(spec, run.status, polls)
    requires Enumerates(e.policyOrder, Labelled(w.resources.policies, n))
    ensures VerdictInv(spec, StepWith(spec, run, w, n, e).run.status, polls + PersistedPolls(spec, run, w, e))
  {
    if run.status.phase == PhaseObserving && Live(spec, run) {
      ObservingStepFits(spec, run, w, n, polls, e);
    } else {
      QuietStepFits(spec, run, w, n, polls, e);
      assert polls + [] == polls;
    }
  }

  lemma ReconciledFits(w: World, n: string, polls: seq<Signals>, e: Env)
    requires Inv(w) && Possible(w, Reconcile(n, e))
    requires VerdictInv(Defaulted(w.runs[n].spec), w.runs[n].status, polls)
    ensures var run' := Reconciled(w, n, e).runs[n];
            VerdictInv(Defaulted(run'.spec), run'.status, polls + PollsAt(w, Reconcile(n, e), n))
  {
    var run := w.runs[n];
    assert RunInv(run);
    StepFits(Defaulted(run.spec), run, w, n, polls, e);
    StepKeepsIdentity(Defaulted(run.spec), run, w, n, e);
  }

  lemma NextFits(w: World, ev: Event, n: string, polls: seq<Signals>)
    requires Inv(w) && n in w.runs && !(ev.Vanish? && ev.name == n)
    requires VerdictInv(Defaulted(w.runs[n].spec), w.runs[n].status, polls)
    ensures n in Next(w, ev).runs
    ensures VerdictInv(Defaulted(Next(w, ev).runs[n].spec), Next(w, ev).runs[n].status, polls + PollsAt(w, ev, n))
  {
    if ev.Reconcile? && ev.name == n && Possible(w, ev) {
      ReconciledFits(w, n, polls, ev.e);
    } else {
      assert polls + [] == polls;
      SpecOnlyChangesItsAbortFlag(w, ev, n);
      AbortFlagIsSeparate(w.runs[n].spec, Next(w, ev).runs[n].spec.abort);
    }
  }

  lemma {:induction false} ExecFits(w: World, evs: seq<Event>, n: string)
    requires Inv(w) && n in w.runs && w.runs[n].status == FRESH_STATUS && NotVanished(evs, n)
    ensures n in Exec(w, evs).runs
    ensures VerdictInv(Defaulted(Exec(w, evs).runs[n].spec), Exec(w, evs).runs[n].status, Polls(w, evs, n))
  {
    if evs != [] {
      ExecFits(w, evs[..|evs| - 1], n);
      ExecKeepsInv(w, evs[..|evs| - 1]);
      NextFits(Exec(w, evs[..|evs| - 1]), evs[|evs| - 1], n, Polls(w, evs[..|evs| - 1], n));
    }
  }

  /**
   The verdict of every completed, observed run that is no dry run: whatever happened before it was created,
   a pod kill is Passed exactly when some persisted poll found every replacement ready and Failed otherwise;
   network chaos also knows Inconclusive, decided by the last persisted poll; resource exhaustion always passes.
   */
  lemma {:induction false} VerdictIsDeterminedByPolls(w: World, past: seq<Event>, evs: seq<Event>, n: string)
    requires Initial(w) && n in Exec(w, past).runs && Exec(w, past).runs[n].status == FRESH_STATUS
    requires NotVanished(evs, n)
    ensures n in Exec(Exec(w, past), evs).runs
    ensures var run := Exec(Exec(w, past), evs).runs[n];
            var spec, polls := Defaulted(run.spec), Polls(Exec(w, past), evs, n);
            run.status.phase == PhaseCompleted && spec.observe.enabled && !spec.safety.dryRun
            && spec.scenario.kind != NetworkPartition
            ==> run.status.verdict == Expected(spec.scenario.kind, polls)
  {
    EveryReachableWorldIsSound(w, past);
    ExecFits(Exec(w, past), evs, n);
  }

  /** An observed partition never asks the observer and can never pass. */
  lemma {:induction false} PartitionsNeverPass(w: World, past: seq<Event>, evs: seq<Event>, n: string)
    requires Initial(w) && n in Exec(w, past).runs && Exec(w, past).runs[n].status == FRESH_STATUS
    requires NotVanished(evs, n)
    ensures n in Exec(Exec(w, past), evs).runs
    ensures var run := Exec(Exec(w, past), evs).runs[n]; var spec := Defaulted(run.spec);
            run.status.phase == PhaseCompleted && spec.observe.enabled && !spec.safety.dryRun
            && spec.scenario.kind == NetworkPartition
            ==> Polls(Exec(w, past), evs, n) == [] && run.status.verdict in {VerdictInconclusive, VerdictFailed}
  {
    EveryReachableWorldIsSound(w, past);
    ExecFits(Exec(w, past), evs, n);
  }
}
