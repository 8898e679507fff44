/** What the clock forces: overdue runs end, capped injections are not cut off, and one wait that never ends. */
module Deadlines {
  import opened ChaosApi
  import opened Cluster
  import opened Lifecycle
  import opened Execution
  import opened Invariants
  import opened Guarantees
  import Containers
  import Safety

  /******* Bounded termination *******/

  predicate PastDeadlines(spec: RunSpec, st: Status, now: int) {
    && CleanupExpired(spec, st, now)
    && (st.phase == PhaseObserving ==> st.observingStartedAt.Some?
                                       && now - st.observingStartedAt.value > spec.observe.timeout)
  }

  /** Ended, or beyond every deadline and not being deleted. */
  predicate Overdue(w: World, n: string)
    requires n in w.runs
  {
    var run := w.runs[n];
    || IsTerminal(run.status.phase)
    || ((run.status.phase == PhaseObserving || run.status.phase == PhaseCleaningUp)
        && !run.deleting
        && PastDeadlines(Defaulted(run.spec), run.status, w.clock))
  }

  /** Whatever the drivers, the observer and the resolver answer, an overdue run moves when its patch succeeds. */
  lemma OverdueReconcileAdvances(spec: RunSpec, run: Run, w: World, n: string, e: Env)
    requires (run.status.phase == PhaseObserving || run.status.phase == PhaseCleaningUp) && !run.deleting
    requires PastDeadlines(spec, run.status, w.clock)
    ensures var run' := StepWith(spec, run, w, n, e).run;
            && (e.patchOk(0) ==> Rank(run'.status.phase) > Rank(run.status.phase))
            && (!e.patchOk(0) ==> run' == run)
            && run'.status.startedAt == run.status.startedAt
            && (run'.status.phase == run.status.phase || run'.status.phase == PhaseCleaningUp
                || IsTerminal(run'.status.phase))
  {
    if run.status.phase == PhaseObserving && !spec.abort {
      ObservingLeavesInjection(spec, run.status, PollOf(spec, run.status, w.resources, e), w.clock);
    }
  }

  predicate Undisturbed(ev: Event, n: string) {
    !(ev.Vanish? && ev.name == n) && !(ev.RequestDelete? && ev.name == n)
  }

  /** A reconcile of the run that happens and whose first patch goes through. */
  predicate Tries(w: World, ev: Event, n: string) {
    ev.Reconcile? && ev.name == n && ev.e.patchOk(0) && Possible(w, ev)
  }

  lemma ReconcileKeepsOverdue(w: World, n: string, e: Env)
    requires n in w.runs && Overdue(w, n) && Possible(w, Reconcile(n, e))
    ensures var w' := Reconciled(w, n, e);
            && Overdue(w', n)
            && Rank(w'.runs[n].status.phase) >= Rank(w.runs[n].status.phase)
            && (e.patchOk(0) && !IsTerminal(w.runs[n].status.phase) ==>
                  Rank(w'.runs[n].status.phase) > Rank(w.runs[n].status.phase))
  {
    var run := w.runs[n];
    if !IsTerminal(run.status.phase) {
      OverdueReconcileAdvances(Defaulted(run.spec), run, w, n, e);
      StepKeepsIdentity(Defaulted(run.spec), run, w, n, e);
    }
  }

  lemma NextKeepsOverdue(w: World, ev: Event, n: string)
    requires n in w.runs && Overdue(w, n) && Undisturbed(ev, n)
    ensures n in Next(w, ev).runs && Overdue(Next(w, ev), n)
    ensures var p, p' := w.runs[n].status.phase, Next(w, ev).runs[n].status.phase;
            Rank(p') >= Rank(p) && (Tries(w, ev, n) && !IsTerminal(p) ==> Rank(p') > Rank(p))
  {
    if Possible(w, ev) {
      if ev.Reconcile? && ev.name == n {
        ReconcileKeepsOverdue(w, n, ev.e);
      } else if ev.SetAbort? && ev.name == n {
        AbortFlagIsSeparate(w.runs[n].spec, ev.on);
      }
    }
  }

  function CountTries(w: World, evs: seq<Event>, n: string): nat {
    if evs == [] then 0
    else
      var before := evs[..|evs| - 1];
      CountTries(w, before, n) + if Tries(Exec(w, before), evs[|evs| - 1], n) then 1 else 0
  }

  lemma {:induction false} TriesRaiseTheRank(w: World, evs: seq<Event>, n: string)
    requires n in w.runs && Overdue(w, n) && forall i :: 0 <= i < |evs| ==> Undisturbed(evs[i], n)
    ensures n in Exec(w, evs).runs && Overdue(Exec(w, evs), n)
    ensures var rank := Rank(Exec(w, evs).runs[n].status.phase);
            rank >= 4 || rank >= Rank(w.runs[n].status.phase) + CountTries(w, evs, n)
  {
    if evs != [] {
      TriesRaiseTheRank(w, evs[..|evs| - 1], n);
      NextKeepsOverdue(Exec(w, evs[..|evs| - 1]), evs[|evs| - 1], n);
    }
  }

  /**
   From Observing or CleaningUp, two reconciles whose patch succeeds end an overdue run, in any
   interleaving with other events and even if Cleanup, the observer and the resolver always fail.
   */
  lemma {:induction false} TwoReconcilesEndAnOverdueRun(w: World, evs: seq<Event>, n: string)
    requires n in w.runs && Overdue(w, n) && forall i :: 0 <= i < |evs| ==> Undisturbed(evs[i], n)
    requires CountTries(w, evs, n) >= 2
    ensures n in Exec(w, evs).runs && IsTerminal(Exec(w, evs).runs[n].status.phase)
  {
    TriesRaiseTheRank(w, evs, n);
  }

  /******* Capped injections *******/

  predicate InjectedInWindow(recs: seq<ContainerRecord>, deadline: int) {
    forall i :: 0 <= i < |recs| ==> recs[i].injectedAt.Some? && recs[i].injectedAt.value <= deadline
  }

  function ChaosDuration(spec: RunSpec): int {
    if spec.scenario.kind == NetworkChaos then Containers.NetworkDuration(spec.scenario.network)
    else Containers.ExhaustionDuration(spec.scenario.exhaustion)
  }

  predicate CapsWithinGrace(s: SafetySpec) {
    && s.maxNetworkDuration.Some? && s.maxNetworkDuration.value <= CLEANUP_GRACE
    && s.maxExhaustionDuration.Some? && s.maxExhaustionDuration.value <= CLEANUP_GRACE
  }

  /** The default caps are exactly the grace period. */
  lemma DefaultCapsAreWithinGrace(s: SafetySpec)
    requires s.maxNetworkDuration.None? && s.maxExhaustionDuration.None?
    ensures CapsWithinGrace(DefaultSafety(s))
  {
  }

  lemma CheckedDurationFitsTheGrace(
      namespace: string, n: string, spec: RunSpec, target: ResolvedTarget, runs: map<string, Run>, listOk: bool)
    requires Safety.Check(namespace, n, spec, target, runs, listOk).None?
    requires CapsWithinGrace(spec.safety) && UsesContainers(spec.scenario.kind)
    ensures ChaosDuration(spec) <= CLEANUP_GRACE
  {
  }

  predicate HasRecords(st: Status) {
    st.networkInjections != [] || st.exhaustionInjections != []
  }

  /** Chaos on record lasts no longer than the grace period, because it passed the checks. */
  predicate CapInv(spec: RunSpec, st: Status) {
    CapsWithinGrace(spec.safety) && UsesContainers(spec.scenario.kind) && HasRecords(st) ==>
      ChaosDuration(spec) <= CLEANUP_GRACE
  }

  lemma UncheckedInjectingRecordsNothing(
      namespace: string, n: string, spec: RunSpec, run: Run, peers: map<string, Run>, r: Resources, now: int, e: Env)
    requires !HasRecords(run.status) && !PassesChecks(namespace, n, spec, peers, e)
    ensures !HasRecords(Injecting(namespace, n, spec, run, peers, r, now, e).run.status)
  {
  }

  lemma PendingRecordsNothing(spec: RunSpec, run: Run, now: int, e: Env)
    requires !HasRecords(run.status)
    ensures !HasRecords(Pending(spec, run, now, e).status)
  {
  }

  lemma CleaningUpRecordsNothing(n: string, spec: RunSpec, run: Run, r: Resources, now: int, e: Env)
    requires Enumerates(e.policyOrder, Labelled(r.policies, n)) && !HasRecords(run.status)
    ensures !HasRecords(CleaningUp(spec, run, r, now, e).run.status)
  {
    CleanUpKeepsTheRest(n, spec, run.status, r, now, e);
  }

  /** Records appear only in a reconcile that passes the checks. */
  lemma UncheckedStepRecordsNothing(spec: RunSpec, run: Run, w: World, n: string, e: Env)
    requires Enumerates(e.policyOrder, Labelled(w.resources.policies, n))
    requires !HasRecords(run.status) && !PassesChecks(w.namespace, n, spec, w.runs, e)
    ensures !HasRecords(StepWith(spec, run, w, n, e).run.status)
  {
    if Live(spec, run) {
      match run.status.phase
      case PhaseInjecting =>
        UncheckedInjectingRecordsNothing(w.namespace, n, spec, run, w.runs, w.resources, w.clock, e);
      case PhaseObserving =>
        ObservingLeavesInjection(spec, run.status, PollOf(spec, run.status, w.resources, e), w.clock);
      case PhaseCleaningUp => CleaningUpRecordsNothing(n, spec, run, w.resources, w.clock, e);
      case _ => PendingRecordsNothing(spec, run, w.clock, e);
    }
  }

  lemma StepKeepsCapInv(spec: RunSpec, run: Run, w: World, n: string, e: Env)
    requires Enumerates(e.policyOrder, Labelled(w.resources.policies, n)) && CapInv(spec, run.status)
    ensures CapInv(spec, StepWith(spec, run, w, n, e).run.status)
  {
    if CapsWithinGrace(spec.safety) && UsesContainers(spec.scenario.kind) && ChaosDuration(spec) > CLEANUP_GRACE {
      if e.target.Some? && PassesChecks(w.namespace, n, spec, w.runs, e) {
        CheckedDurationFitsTheGrace(w.namespace, n, spec, e.target.value, w.runs, e.listRunsOk);
      } else {
        UncheckedStepRecordsNothing(spec, run, w, n, e);
      }
    }
  }

  predicate AllCapped(w: World) {
    forall n <- w.runs :: CapInv(Defaulted(w.runs[n].spec), w.runs[n].status)
  }

  lemma NextKeepsCaps(w: World, ev: Event)
    requires AllCapped(w)
    ensures AllCapped(Next(w, ev))
  {
    if Possible(w, ev) {
      if ev.Reconcile? {
        var run := w.runs[ev.name];
        StepKeepsCapInv(Defaulted(run.spec), run, w, ev.name, ev.e);
        StepKeepsIdentity(Defaulted(run.spec), run, w, ev.name, ev.e);
      } else if ev.SetAbort? {
        AbortFlagIsSeparate(w.runs[ev.name].spec, ev.on);
      }
    }
  }

  lemma {:induction false} ExecKeepsCaps(w: World, evs: seq<Event>)
    requires Initial(w)
    ensures AllCapped(Exec(w, evs))
  {
    if evs != [] {
      ExecKeepsCaps(w, evs[..|evs| - 1]);
      NextKeepsCaps(Exec(w, evs[..|evs| - 1]), evs[|evs| - 1]);
    }
  }

  lemma FinishedChaosSettles(spec: RunSpec, st: Status, r: Resources, now: int, e: Env, window: int)
    requires UsesContainers(spec.scenario.kind) && ScenarioInv(spec, st)
    requires InjectedInWindow(st.networkInjections, window) && InjectedInWindow(st.exhaustionInjections, window)
    requires window + ChaosDuration(spec) <= now && forall p :: e.getOk(p)
    ensures var c := CleanUp(spec, st, r, now, e);
            c.ok && CleanupComplete(c.status) && c.status.phase == st.phase
  {
    Containers.SettlingIsSound(st.networkInjections, r.pods, Containers.NetworkDuration(spec.scenario.network), now, e.getOk);
    Containers.SettlingIsSound(st.exhaustionInjections, r.pods, Containers.ExhaustionDuration(spec.scenario.exhaustion),
                               now, e.getOk);
  }

  function Window(spec: RunSpec, st: Status): int
    requires st.startedAt.Some?
  {
    st.startedAt.value + spec.observe.timeout
  }

  /** All chaos on record began before the observation window of the run was over. */
  predicate InjectedInTime(spec: RunSpec, st: Status) {
    && st.startedAt.Some?
    && InjectedInWindow(st.networkInjections, Window(spec, st))
    && InjectedInWindow(st.exhaustionInjections, Window(spec, st))
  }

  lemma NothingToSettle(spec: RunSpec, st: Status, r: Resources, now: int, e: Env)
    requires UsesContainers(spec.scenario.kind) && ScenarioInv(spec, st) && !HasRecords(st)
    ensures var c := CleanUp(spec, st, r, now, e);
            c.ok && CleanupComplete(c.status) && c.status.phase == st.phase
  {
  }

  lemma CleanupEndsRegularly(spec: RunSpec, run: Run, r: Resources, now: int, e: Env)
    requires StatusInv(spec, run.status) && run.status.phase == PhaseCleaningUp && UsesContainers(spec.scenario.kind)
    requires InjectedInTime(spec, run.status) && now <= Window(spec, run.status) + CLEANUP_GRACE
    requires HasRecords(run.status) ==> Window(spec, run.status) + ChaosDuration(spec) <= now
    requires (forall p :: e.getOk(p)) && e.patchOk(0)
    ensures var run' := CleaningUp(spec, run, r, now, e).run;
            run'.status.phase in {PhaseCompleted, PhaseAborted} && CleanupComplete(run'.status)
  {
    if HasRecords(run.status) {
      FinishedChaosSettles(spec, run.status, r, now, e, Window(spec, run.status));
    } else {
      NothingToSettle(spec, run.status, r, now, e);
    }
    ClosedIsRegular(CleanUp(spec, run.status, r, now, e).status, now);
  }

  /** A container run that is cleaning up, not being deleted, whose chaos began in time. */
  predicate CleansUpInTime(w: World, n: string) {
    && n in w.runs
    && var run, spec := w.runs[n], Defaulted(w.runs[n].spec);
       && run.status.phase == PhaseCleaningUp && !(run.deleting && run.finalizer)
       && UsesContainers(spec.scenario.kind) && InjectedInTime(spec, run.status)
  }

  /** Chaos on record is over by the deadline, and a cleanup in between ends the run. */
  predicate EndsInTime(w: World, n: string, e: Env)
    requires CleansUpInTime(w, n)
  {
    var run, spec := w.runs[n], Defaulted(w.runs[n].spec);
    var over, deadline := Window(spec, run.status) + ChaosDuration(spec), Window(spec, run.status) + CLEANUP_GRACE;
    && (HasRecords(run.status) ==> over <= deadline)
    && ((HasRecords(run.status) ==> over <= w.clock) && w.clock <= deadline ==>
          var run' := Reconciled(w, n, e).runs[n];
          run'.status.phase in {PhaseCompleted, PhaseAborted} && CleanupComplete(run'.status))
  }

  lemma CappedCleanupEndsInTime(w: World, n: string, e: Env)
    requires CleansUpInTime(w, n) && RunInv(w.runs[n]) && CapInv(Defaulted(w.runs[n].spec), w.runs[n].status)
    requires CapsWithinGrace(Defaulted(w.runs[n].spec).safety) && (forall p :: e.getOk(p)) && e.patchOk(0)
    ensures EndsInTime(w, n, e)
  {
    var run, spec := w.runs[n], Defaulted(w.runs[n].spec);
    if (HasRecords(run.status) ==> Window(spec, run.status) + ChaosDuration(spec) <= w.clock)
       && w.clock <= Window(spec, run.status) + CLEANUP_GRACE {
      CleanupEndsRegularly(spec, run, w.resources, w.clock, e);
    }
  }

  /**
   The absolute deadline cannot cut off chaos with a cap no larger than the grace period that began inside the
   observation window: in every execution its end is never after the deadline, and any error-free reconcile
   between the two ends the run regularly with every record marked.
   */
  lemma {:induction false} CappedChaosIsNotCutOff(w: World, evs: seq<Event>, n: string, e: Env)
    requires Initial(w) && CleansUpInTime(Exec(w, evs), n) && Possible(Exec(w, evs), Reconcile(n, e))
    requires CapsWithinGrace(Defaulted(Exec(w, evs).runs[n].spec).safety)
    requires (forall p :: e.getOk(p)) && e.patchOk(0)
    ensures EndsInTime(Exec(w, evs), n, e)
  {
    ExecKeepsCaps(w, evs);
    EveryReachableWorldIsSound(w, evs);
    CappedCleanupEndsInTime(Exec(w, evs), n, e);
  }

  /** A run that sets no caps gets caps that are exactly the grace period. */
  lemma {:induction false} DefaultCapsAreNotCutOff(w: World, evs: seq<Event>, n: string, e: Env)
    requires Initial(w) && CleansUpInTime(Exec(w, evs), n) && Possible(Exec(w, evs), Reconcile(n, e))
    requires var s := Exec(w, evs).runs[n].spec.safety; s.maxNetworkDuration.None? && s.maxExhaustionDuration.None?
    requires (forall p :: e.getOk(p)) && e.patchOk(0)
    ensures EndsInTime(Exec(w, evs), n, e)
  {
    DefaultCapsAreWithinGrace(Exec(w, evs).runs[n].spec.safety);
    CappedChaosIsNotCutOff(w, evs, n, e);
  }

  lemma ClosedIsRegular(st: Status, now: int)
    ensures Closed(st, now).phase in {PhaseCompleted, PhaseAborted}
    ensures CleanupComplete(Closed(st, now)) <==> CleanupComplete(st)
  {
  }

  /******* The checkpoint wait *******/

  /**
   The wait is meant to be bounded by checkpointWaitTimeout. Each Pending reconcile starts it anew, so it expires
   exactly when one probe, with the fraction of a second the stored timestamp loses, takes longer than that.
   */
  lemma CheckpointWaitMeasuresOneProbe(spec: RunSpec, run: Run, now: int, e: Env)
    requires Valid(spec) && spec.observe.rest.requireStableCheckpoint && spec.observe.rest.waitTimeout.Some?
    requires Early(run.status.phase) && e.probe == NotStable && e.patchOk(0) && e.patchOk(1)
    ensures Pending(spec, run, now, e).status.phase == PhaseFailed
            <==> now % SECOND + e.probeTime > spec.observe.rest.waitTimeout.value
  {
  }

  /** Waiting for a checkpoint that must be stable, with a timeout a second longer than `slowest`. */
  predicate Waiting(w: World, n: string, slowest: nat) {
    && n in w.runs
    && var spec, run := Defaulted(w.runs[n].spec), w.runs[n];
       && Early(run.status.phase) && !run.finalizer && !run.spec.abort
       && WaitsForCheckpoint(spec, slowest)
  }

  predicate WaitsForCheckpoint(spec: RunSpec, slowest: nat) {
    && Valid(spec) && spec.observe.rest.requireStableCheckpoint
    && spec.observe.rest.waitTimeout.Some? && spec.observe.rest.waitTimeout.value >= SECOND + slowest
  }

  /** No probe finds a stable checkpoint or takes longer than `slowest`. */
  predicate NeverStable(ev: Event, n: string, slowest: nat) {
    && (ev.Reconcile? && ev.name == n ==> ev.e.probe != Stable && ev.e.probeTime <= slowest)
    && !(ev.SetAbort? && ev.name == n) && !(ev.Vanish? && ev.name == n)
  }

  lemma StepKeepsWaiting(spec: RunSpec, run: Run, w: World, n: string, e: Env)
    requires Early(run.status.phase) && !run.finalizer && !spec.abort && e.probe != Stable
    requires WaitsForCheckpoint(spec, e.probeTime)
    ensures var run' := StepWith(spec, run, w, n, e).run; Early(run'.status.phase) && !run'.finalizer
  {
    assert !CheckpointWaitExpired(spec, Stamp(w.clock), w.clock + e.probeTime);
  }

  /** So a checkpoint that never becomes stable keeps the run Pending for ever, however much time passes. */
  lemma {:induction false} UnstableCheckpointWaitsForever(w: World, evs: seq<Event>, n: string, slowest: nat)
    requires Waiting(w, n, slowest) && forall i :: 0 <= i < |evs| ==> NeverStable(evs[i], n, slowest)
    ensures Waiting(Exec(w, evs), n, slowest)
  {
    if evs != [] {
      var before, ev := Exec(w, evs[..|evs| - 1]), evs[|evs| - 1];
      UnstableCheckpointWaitsForever(w, evs[..|evs| - 1], n, slowest);
      if ev.Reconcile? && ev.name == n && Possible(before, ev) {
        var run := before.runs[n];
        StepKeepsWaiting(Defaulted(run.spec), run, before, n, ev.e);
        StepKeepsIdentity(Defaulted(run.spec), run, before, n, ev.e);
      }
    }
  }
}
