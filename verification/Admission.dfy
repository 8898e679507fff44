/** The concurrency guard as an admission protocol over any number of runs. */
module Admission {
  import opened Wrappers
  import opened ChaosApi
  import opened Cluster
  import opened Drivers
  import opened Lifecycle
  import opened Execution
  import opened Invariants
  import opened Safety

  /******* When a run is admitted *******/

  predicate Admits(w: World, ev: Event, n: string) {
    && ev.Reconcile? && ev.name == n && Possible(w, ev)
    && PersistsInjection(Defaulted(w.runs[n].spec), w.runs[n], w, n, ev.e)
  }

  /** The position in the history at which each run was last admitted. */
  function Stamps(w: World, evs: seq<Event>): map<string, nat> {
    if evs == [] then map[]
    else
      var k := |evs| - 1;
      var before := Stamps(w, evs[..k]);
      if evs[k].Reconcile? && Admits(Exec(w, evs[..k]), evs[k], evs[k].name) then before[evs[k].name := k] else before
  }

  function Limit(run: Run): int { Defaulted(run.spec).safety.maxConcurrent }

  /** The active runs on a target. */
  function ActiveOn(w: World, target: string): set<string> {
    set p | p in w.runs && Targets(w.runs[p], target)
  }

  /** The active runs on a target that were admitted no later than `r`. */
  function AdmittedBy(w: World, stamps: map<string, nat>, r: string, target: string): set<string>
    requires r in stamps
  {
    set p | p in ActiveOn(w, target) && p in stamps && stamps[p] <= stamps[r]
  }

  predicate Bounded(w: World, stamps: map<string, nat>, r: string, target: string)
    requires r in w.runs
  {
    Targets(w.runs[r], target) ==> r in stamps && |AdmittedBy(w, stamps, r, target)| <= Limit(w.runs[r])
  }

  ghost predicate AdmissionInv(w: World, stamps: map<string, nat>, now: nat) {
    && (forall m <- stamps :: stamps[m] < now)
    && (forall m <- stamps, n <- stamps :: m != n ==> stamps[m] != stamps[n])
    && (forall r <- w.runs, target: string :: Bounded(w, stamps, r, target))
  }

  /******* Keeping it *******/

  lemma InjectingWithoutRecord(spec: RunSpec, run: Run, w: World, n: string, e: Env, target: string)
    requires run.status.phase == PhaseInjecting && Live(spec, run)
    requires !PersistsInjection(spec, run, w, n, e)
    requires Targets(Injecting(w.namespace, n, spec, run, w.runs, w.resources, w.clock, e).run, target)
    ensures Targets(run, target)
  {
    if run.status.injectedPods == [] && PassesChecks(w.namespace, n, spec, w.runs, e) && !spec.safety.dryRun {
      var t := e.target.value;
      var step := Inject(n, spec, Cleared(run.status, t), t, w.resources, w.clock, e);
      DriverWithoutRecord(spec, run, step, |t.tmPods|, w.clock, e);
    }
  }

  lemma PendingSetsNoTarget(spec: RunSpec, run: Run, now: int, e: Env)
    ensures Pending(spec, run, now, e).status.targetSummary == run.status.targetSummary
  {
  }

  /** Without an admission no run becomes active on a target it was not active on. */
  lemma NoAdmissionNoNewTarget(spec: RunSpec, run: Run, w: World, n: string, e: Env, target: string)
    requires Enumerates(e.policyOrder, Labelled(w.resources.policies, n)) && !PersistsInjection(spec, run, w, n, e)
    requires Targets(StepWith(spec, run, w, n, e).run, target)
    ensures Targets(run, target)
  {
    if !Live(spec, run) {
    } else if Late(run.status.phase) {
      LateStepsLeaveInjection(spec, run, w, n, e);
    } else if run.status.phase == PhaseInjecting {
      InjectingWithoutRecord(spec, run, w, n, e, target);
    } else {
      PendingSetsNoTarget(spec, run, w.clock, e);
    }
  }

  lemma DriverWithoutRecord(spec: RunSpec, run: Run, step: InjectStep, count: nat, now: int, e: Env)
    requires run.status.phase == PhaseInjecting && !(step.outcome.Injected? && e.patchOk(0))
    ensures var run' := AfterDriver(spec, run, step, count, now, e); run' == run || IsTerminal(run'.status.phase)
  {
  }

  /** An admitted run is active on exactly the target that was checked, next to fewer peers than its limit. */
  lemma AdmissionWasChecked(spec: RunSpec, run: Run, w: World, n: string, e: Env, target: string)
    requires n in w.runs && PersistsInjection(spec, run, w, n, e)
    requires Targets(StepWith(spec, run, w, n, e).run, target)
    ensures |ActivePeers(w.runs, n, target)| < spec.safety.maxConcurrent
  {
    var t := e.target.value;
    var step := Inject(n, spec, Cleared(run.status, t), t, w.resources, w.clock, e);
    InjectKeepsTheRest(n, spec, Cleared(run.status, t), t, w.resources, w.clock, e);
    DriverRecordsTarget(spec, run, step, t, w.clock, e);
    assert target == t.logicalName;
  }

  lemma DriverRecordsTarget(spec: RunSpec, run: Run, step: InjectStep, t: ResolvedTarget, now: int, e: Env)
    requires step.outcome.Injected? && e.patchOk(0)
    requires step.status.targetSummary == Some(TargetSummary(t.platform, t.logicalName))
    ensures AfterDriver(spec, run, step, |t.tmPods|, now, e).status.targetSummary
            == Some(TargetSummary(t.platform, t.logicalName))
  {
  }

  /** In a step without admission the sets only shrink. */
  lemma QuietStepKeepsBounds(w: World, w': World, stamps: map<string, nat>, r: string, target: string)
    requires r in w'.runs && (Targets(w'.runs[r], target) ==> r in w.runs && Bounded(w, stamps, r, target))
    requires Targets(w'.runs[r], target) ==> Targets(w.runs[r], target) && Limit(w'.runs[r]) == Limit(w.runs[r])
    requires ActiveOn(w', target) <= ActiveOn(w, target)
    ensures Bounded(w', stamps, r, target)
  {
    if Targets(w'.runs[r], target) {
      SubsetIsSmaller(AdmittedBy(w', stamps, r, target), AdmittedBy(w, stamps, r, target));
    }
  }

  lemma RunsOnlyLoseTargets(w: World, ev: Event, target: string)
    requires !(ev.Reconcile? && Admits(w, ev, ev.name))
    ensures ActiveOn(Next(w, ev), target) <= ActiveOn(w, target)
    ensures forall p <- ActiveOn(Next(w, ev), target) :: Limit(Next(w, ev).runs[p]) == Limit(w.runs[p])
  {
    if Possible(w, ev) {
      if ev.Reconcile? {
        var run := w.runs[ev.name];
        StepKeepsIdentity(Defaulted(run.spec), run, w, ev.name, ev.e);
        if Targets(Next(w, ev).runs[ev.name], target) {
          NoAdmissionNoNewTarget(Defaulted(run.spec), run, w, ev.name, ev.e, target);
        }
      } else if ev.SetAbort? {
        AbortFlagIsSeparate(w.runs[ev.name].spec, ev.on);
      }
    }
  }

  lemma QuietStepKeepsInv(w: World, ev: Event, stamps: map<string, nat>, now: nat)
    requires AdmissionInv(w, stamps, now) && !(ev.Reconcile? && Admits(w, ev, ev.name))
    ensures AdmissionInv(Next(w, ev), stamps, now + 1)
  {
    var w' := Next(w, ev);
    forall r, target: string | r in w'.runs
      ensures Bounded(w', stamps, r, target)
    {
      RunsOnlyLoseTargets(w, ev, target);
      if Targets(w'.runs[r], target) {
        assert r in ActiveOn(w', target);
        assert r in ActiveOn(w, target);
      }
      QuietStepKeepsBounds(w, w', stamps, r, target);
    }
  }

  lemma AdmissionKeepsBounds(
      w: World, n: string, e: Env, stamps: map<string, nat>, now: nat, r: string, target: string)
    requires AdmissionInv(w, stamps, now) && Admits(w, Reconcile(n, e), n) && r in w.runs
    ensures var w' := Reconciled(w, n, e); Bounded(w', stamps[n := now], r, target)
  {
    var run, w', stamps' := w.runs[n], Reconciled(w, n, e), stamps[n := now];
    StepKeepsIdentity(Defaulted(run.spec), run, w, n, e);
    if Targets(w'.runs[r], target) {
      if r == n {
        AdmissionWasChecked(Defaulted(run.spec), run, w, n, e, target);
        var peers := ActivePeers(w.runs, n, target);
        assert AdmittedBy(w', stamps', n, target) <= peers + {n};
        SubsetIsSmaller(AdmittedBy(w', stamps', n, target), peers + {n});
        assert n !in peers;
      } else {
        assert Bounded(w, stamps, r, target);
        assert AdmittedBy(w', stamps', r, target) <= AdmittedBy(w, stamps, r, target);
        SubsetIsSmaller(AdmittedBy(w', stamps', r, target), AdmittedBy(w, stamps, r, target));
      }
    }
  }

  lemma AdmissionKeepsInv(w: World, n: string, e: Env, stamps: map<string, nat>, now: nat)
    requires AdmissionInv(w, stamps, now) && Admits(w, Reconcile(n, e), n)
    ensures AdmissionInv(Reconciled(w, n, e), stamps[n := now], now + 1)
  {
    var w', stamps' := Reconciled(w, n, e), stamps[n := now];
    forall r, target: string | r in w'.runs
      ensures Bounded(w', stamps', r, target)
    {
      AdmissionKeepsBounds(w, n, e, stamps, now, r, target);
    }
  }

  lemma {:induction false} ExecKeepsAdmissionInv(w: World, evs: seq<Event>)
    requires Initial(w)
    ensures AdmissionInv(Exec(w, evs), Stamps(w, evs), |evs|)
  {
    if evs != [] {
      var k := |evs| - 1;
      ExecKeepsAdmissionInv(w, evs[..k]);
      var before, ev := Exec(w, evs[..k]), evs[k];
      if ev.Reconcile? && Admits(before, ev, ev.name) {
        AdmissionKeepsInv(before, ev.name, ev.e, Stamps(w, evs[..k]), k);
      } else {
        QuietStepKeepsInv(before, ev, Stamps(w, evs[..k]), k);
      }
    }
  }

  /** Every active run was admitted, and those active on its target and admitted no later respect its own limit. */
  lemma {:induction false} EachRunRespectsItsLimit(w: World, evs: seq<Event>, r: string, target: string)
    requires Initial(w) && r in Exec(w, evs).runs && Targets(Exec(w, evs).runs[r], target)
    ensures var w', stamps := Exec(w, evs), Stamps(w, evs);
            r in stamps && |AdmittedBy(w', stamps, r, target)| <= Limit(w'.runs[r])
  {
    ExecKeepsAdmissionInv(w, evs);
    assert Bounded(Exec(w, evs), Stamps(w, evs), r, target);
  }

  lemma LatestOf(s: set<string>, stamps: map<string, nat>) returns (r: string)
    requires s != {} && s <= stamps.Keys
    ensures r in s && forall p <- s :: stamps[p] <= stamps[r]
  {
    r :| r in s;
    if s != {r} {
      var q := LatestOf(s - {r}, stamps);
      if stamps[q] > stamps[r] { r := q; }
    }
  }

  /** With one limit common to the runs of a namespace, never more than that many are active on a target. */
  lemma CommonLimitIsNeverExceeded(w: World, evs: seq<Event>, target: string, limit: nat)
    requires Initial(w) && forall n <- Exec(w, evs).runs :: Limit(Exec(w, evs).runs[n]) <= limit
    ensures |ActiveOn(Exec(w, evs), target)| <= limit
  {
    var w', stamps := Exec(w, evs), Stamps(w, evs);
    var active := ActiveOn(w', target);
    if active != {} {
      forall p | p in active ensures p in stamps { EachRunRespectsItsLimit(w, evs, p, target); }
      var r := LatestOf(active, stamps);
      EachRunRespectsItsLimit(w, evs, r, target);
      assert AdmittedBy(w', stamps, r, target) == active;
    }
  }
}
