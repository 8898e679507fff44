/** An abort that arrives when a run is already cleaning up, or has ended, changes nothing that follows. */
module Aborts {
  import opened ChaosApi
  import opened Cluster
  import opened Drivers
  import opened Lifecycle
  import opened Execution
  import opened Invariants
  import opened Guarantees
  import Safety

  /** Too late for an abort. */
  predicate Settling(p: Phase) { p == PhaseCleaningUp || IsTerminal(p) }

  function WithAbort(run: Run, on: bool): Run {
    run.(spec := run.spec.(abort := on))
  }

  /** Two worlds that differ at most in the abort flag of the named run, for which it is too late. */
  predicate SameButAbort(w: World, v: World, n: string) {
    && v == w.(runs := v.runs)
    && v.runs.Keys == w.runs.Keys
    && (forall m <- w.runs :: m != n ==> v.runs[m] == w.runs[m])
    && n in w.runs && Settling(w.runs[n].status.phase)
    && v.runs[n] == WithAbort(w.runs[n], v.runs[n].spec.abort)
  }

  /******* One step *******/

  /** The checks look at the peers' statuses, not at their specs. */
  lemma ChecksIgnoreAborts(w: World, v: World, n: string, m: string, spec: RunSpec, e: Env)
    requires SameButAbort(w, v, n)
    ensures PassesChecks(v.namespace, m, spec, v.runs, e) <==> PassesChecks(w.namespace, m, spec, w.runs, e)
  {
    if e.target.Some? {
      var target := e.target.value.logicalName;
      assert Safety.ActivePeers(v.runs, m, target) == Safety.ActivePeers(w.runs, m, target);
    }
  }

  lemma OtherRunsStepAlike(w: World, v: World, n: string, m: string, spec: RunSpec, run: Run, e: Env)
    requires SameButAbort(w, v, n)
    ensures StepWith(spec, run, v, m, e) == StepWith(spec, run, w, m, e)
  {
    ChecksIgnoreAborts(w, v, n, m, spec, e);
  }

  lemma CleanUpIgnoresAbort(spec: RunSpec, on: bool, st: Status, r: Resources, now: int, e: Env)
    ensures CleanUp(spec.(abort := on), st, r, now, e) == CleanUp(spec, st, r, now, e)
  {
  }

  lemma CleaningUpIgnoresAbort(spec: RunSpec, on: bool, run: Run, r: Resources, now: int, e: Env)
    ensures var l := CleaningUp(spec, run, r, now, e);
            CleaningUp(spec.(abort := on), WithAbort(run, on), r, now, e) == l.(run := WithAbort(l.run, on))
  {
    CleanUpIgnoresAbort(spec, on, run.status, r, now, e);
  }

  lemma DeletingIgnoresAbort(spec: RunSpec, on: bool, run: Run, r: Resources, now: int, e: Env)
    ensures var l := Deleting(spec, run, r, now, e);
            Deleting(spec.(abort := on), WithAbort(run, on), r, now, e) == l.(run := WithAbort(l.run, on))
  {
    CleanUpIgnoresAbort(spec, on, run.status, r, now, e);
  }

  /** The run itself steps the same whatever its flag says. */
  lemma SettlingRunStepsAlike(w: World, v: World, n: string, spec: RunSpec, on: bool, run: Run, e: Env)
    requires SameButAbort(w, v, n) && Settling(run.status.phase)
    ensures var l := StepWith(spec, run, w, n, e);
            StepWith(spec.(abort := on), WithAbort(run, on), v, n, e) == l.(run := WithAbort(l.run, on))
  {
    if !IsTerminal(run.status.phase) {
      CleaningUpIgnoresAbort(spec, on, run, w.resources, w.clock, e);
      DeletingIgnoresAbort(spec, on, run, w.resources, w.clock, e);
    }
  }

  lemma ReconciledAlike(w: World, v: World, n: string, m: string, e: Env)
    requires SameButAbort(w, v, n) && Possible(w, Reconcile(m, e))
    ensures SameButAbort(Reconciled(w, m, e), Reconciled(v, m, e), n)
  {
    var run, spec := w.runs[m], Defaulted(w.runs[m].spec);
    StepKeepsIdentity(spec, run, w, m, e);
    if m == n {
      var on := v.runs[n].spec.abort;
      AbortFlagIsSeparate(run.spec, on);
      SettlingRunStepsAlike(w, v, n, spec, on, run, e);
      LateStepsLeaveInjection(spec, run, w, n, e);
    } else {
      OtherRunsStepAlike(w, v, n, m, spec, run, e);
    }
  }

  predicate IsAbortOf(ev: Event, n: string) {
    ev.SetAbort? && ev.name == n
  }

  /** The same event keeps two such worlds alike. */
  lemma NextAlike(w: World, v: World, ev: Event, n: string)
    requires SameButAbort(w, v, n) && !IsAbortOf(ev, n) && !(ev.Vanish? && ev.name == n)
    ensures SameButAbort(Next(w, ev), Next(v, ev), n)
  {
    if ev.Reconcile? && Possible(w, ev) {
      ReconciledAlike(w, v, n, ev.name, ev.e);
    }
  }

  /** So does an abort of the named run in only one of them. */
  lemma AbortKeepsThemAlike(w: World, v: World, ev: Event, n: string)
    requires SameButAbort(w, v, n) && IsAbortOf(ev, n)
    ensures SameButAbort(Next(w, ev), v, n)
  {
  }

  /******* Whole runs *******/

  function WithoutAborts(evs: seq<Event>, n: string): seq<Event> {
    if evs == [] then []
    else
      var last := evs[|evs| - 1];
      WithoutAborts(evs[..|evs| - 1], n) + if IsAbortOf(last, n) then [] else [last]
  }

  lemma {:induction false} AbortsCanBeLeftOut(w: World, v: World, evs: seq<Event>, n: string)
    requires SameButAbort(w, v, n) && NotVanished(evs, n)
    ensures SameButAbort(Exec(w, evs), Exec(v, WithoutAborts(evs, n)), n)
  {
    if evs != [] {
      var before, ev := evs[..|evs| - 1], evs[|evs| - 1];
      AbortsCanBeLeftOut(w, v, before, n);
      var w', v' := Exec(w, before), Exec(v, WithoutAborts(before, n));
      if IsAbortOf(ev, n) {
        AbortKeepsThemAlike(w', v', ev, n);
        assert WithoutAborts(evs, n) == WithoutAborts(before, n);
      } else {
        NextAlike(w', v', ev, n);
        ExecOfAppended(v, WithoutAborts(before, n), ev);
      }
    }
  }

  lemma SymmetricAndTransitive(a: World, b: World, c: World, n: string)
    requires SameButAbort(a, c, n) && SameButAbort(b, c, n)
    ensures SameButAbort(a, b, n)
  {
  }

  /**
   Once a run is cleaning up or has ended, two histories that differ only in when its abort flag is set or
   cleared lead to the same world but for that flag: the same status, finalizer, resources and other runs.
   */
  lemma {:induction false} LateAbortsAreIgnored(w: World, v: World, evs: seq<Event>, evs': seq<Event>, n: string)
    requires SameButAbort(w, v, n)
    requires WithoutAborts(evs, n) == WithoutAborts(evs', n) && NotVanished(evs, n) && NotVanished(evs', n)
    ensures SameButAbort(Exec(w, evs), Exec(v, evs'), n)
  {
    AbortsCanBeLeftOut(w, v, evs, n);
    assert SameButAbort(v, v, n);
    AbortsCanBeLeftOut(v, v, evs', n);
    SymmetricAndTransitive(Exec(w, evs), Exec(v, evs'), Exec(v, WithoutAborts(evs, n)), n);
  }
}
