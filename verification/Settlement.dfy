/** The records of ephemeral containers: when they are marked, that they stay marked, and where they all are. */
module Settlement {
  import opened Wrappers
  import opened ChaosApi
  import opened Cluster
  import opened Drivers
  import opened Lifecycle
  import opened Execution
  import opened Invariants
  import opened Guarantees
  import opened Containers

  /** Every container recorded by a run that is Completed or Aborted is accounted for, and so is every policy. */
  lemma {:induction false} EndedRunsAreSettled(w: World, evs: seq<Event>, n: string)
    requires Initial(w) && n in Exec(w, evs).runs
    requires Exec(w, evs).runs[n].status.phase in {PhaseCompleted, PhaseAborted}
    ensures var st := Exec(w, evs).runs[n].status;
            AllCleanedUp(st.networkInjections) && AllCleanedUp(st.exhaustionInjections) && st.networkPolicies == []
  {
    EveryReachableWorldIsSound(w, evs);
    assert RunInv(Exec(w, evs).runs[n]);
  }

  /** Both lists of records of a status settle soundly into those of another. */
  predicate RecordsSettle(spec: RunSpec, a: Status, b: Status, w: World) {
    && (a.networkInjections != [] ==>
          SettlesSoundly(a.networkInjections, b.networkInjections, w.resources.pods,
                         NetworkDuration(spec.scenario.network), w.clock))
    && (a.exhaustionInjections != [] ==>
          SettlesSoundly(a.exhaustionInjections, b.exhaustionInjections, w.resources.pods,
                         ExhaustionDuration(spec.scenario.exhaustion), w.clock))
  }

  lemma UnchangedRecordsSettle(spec: RunSpec, a: Status, b: Status, w: World)
    requires SameRecords(a, b)
    ensures RecordsSettle(spec, a, b, w)
  {
  }

  lemma CleanUpSettles(spec: RunSpec, st: Status, w: World, e: Env)
    ensures RecordsSettle(spec, st, CleanUp(spec, st, w.resources, w.clock, e).status, w)
  {
    var pods, kind := w.resources.pods, spec.scenario.kind;
    if kind == NetworkChaos {
      SettlingIsSound(st.networkInjections, pods, NetworkDuration(spec.scenario.network), w.clock, e.getOk);
    } else if kind == ResourceExhaustion {
      SettlingIsSound(st.exhaustionInjections, pods, ExhaustionDuration(spec.scenario.exhaustion), w.clock, e.getOk);
    } else {
      UnchangedRecordsSettle(spec, st, CleanUp(spec, st, w.resources, w.clock, e).status, w);
    }
  }

  lemma AfterCleanupKeepsRecords(c: CleanupStep, now: int)
    ensures AfterCleanup(c, now).networkInjections == c.status.networkInjections
    ensures AfterCleanup(c, now).exhaustionInjections == c.status.exhaustionInjections
  {
  }

  lemma CleaningUpSettles(spec: RunSpec, run: Run, w: World, e: Env)
    ensures RecordsSettle(spec, run.status, CleaningUp(spec, run, w.resources, w.clock, e).run.status, w)
  {
    var st, c := run.status, CleanUp(spec, run.status, w.resources, w.clock, e);
    var st' := CleaningUp(spec, run, w.resources, w.clock, e).run.status;
    AfterCleanupKeepsRecords(c, w.clock);
    if st'.networkInjections == c.status.networkInjections && st'.exhaustionInjections == c.status.exhaustionInjections {
      CleanUpSettles(spec, st, w, e);
    } else {
      UnchangedRecordsSettle(spec, st, st', w);
    }
  }

  predicate KeepsRecords(a: Status, b: Status) {
    && (a.networkInjections != [] ==> b.networkInjections == a.networkInjections)
    && (a.exhaustionInjections != [] ==> b.exhaustionInjections == a.exhaustionInjections)
  }

  lemma InjectKeepsRecords(
      name: string, spec: RunSpec, st: Status, target: ResolvedTarget, r: Resources, now: int, e: Env)
    ensures KeepsRecords(st, Inject(name, spec, st, target, r, now, e).status)
  {
    InjectKeepsTheRest(name, spec, st, target, r, now, e);
  }

  lemma InjectingKeepsRecords(spec: RunSpec, run: Run, w: World, n: string, e: Env)
    ensures KeepsRecords(run.status, Injecting(w.namespace, n, spec, run, w.runs, w.resources, w.clock, e).run.status)
  {
    var st := run.status;
    if st.injectedPods == [] && PassesChecks(w.namespace, n, spec, w.runs, e) && !spec.safety.dryRun {
      var target := e.target.value;
      var step := Inject(n, spec, Cleared(st, target), target, w.resources, w.clock, e);
      InjectKeepsRecords(n, spec, Cleared(st, target), target, w.resources, w.clock, e);
      AfterDriverKeepsRecords(spec, run, step, |target.tmPods|, w.clock, e);
    }
  }

  lemma AfterDriverKeepsRecords(spec: RunSpec, run: Run, step: InjectStep, count: nat, now: int, e: Env)
    ensures var st' := AfterDriver(spec, run, step, count, now, e).status;
            && st'.networkInjections in {run.status.networkInjections, step.status.networkInjections}
            && st'.exhaustionInjections in {run.status.exhaustionInjections, step.status.exhaustionInjections}
  {
  }

  predicate SameRecords(a: Status, b: Status) {
    b.networkInjections == a.networkInjections && b.exhaustionInjections == a.exhaustionInjections
  }

  lemma PendingKeepsRecords(spec: RunSpec, run: Run, now: int, e: Env)
    ensures SameRecords(run.status, Pending(spec, run, now, e).status)
  {
  }

  lemma IdleStepKeepsRecords(spec: RunSpec, run: Run, w: World, n: string, e: Env)
    requires !Live(spec, run)
    ensures SameRecords(run.status, StepWith(spec, run, w, n, e).run.status)
  {
  }

  lemma LiveMarksAreJustified(spec: RunSpec, run: Run, w: World, n: string, e: Env)
    requires Live(spec, run)
    ensures RecordsSettle(spec, run.status, StepWith(spec, run, w, n, e).run.status, w)
  {
    var st, st' := run.status, StepWith(spec, run, w, n, e).run.status;
    match st.phase
    case PhaseInjecting => InjectingKeepsRecords(spec, run, w, n, e);
    case PhaseObserving =>
      ObservingLeavesInjection(spec, st, PollOf(spec, st, w.resources, e), w.clock);
      UnchangedRecordsSettle(spec, st, st', w);
    case PhaseCleaningUp => CleaningUpSettles(spec, run, w, e);
    case _ =>
      PendingKeepsRecords(spec, run, w.clock, e);
      UnchangedRecordsSettle(spec, st, st', w);
  }

  /**
   One reconcile, wherever it stops: a record is newly marked only when its pod is absent, its container has
   terminated, or its duration has elapsed; a mark is never taken back.
   */
  lemma MarksAreJustified(spec: RunSpec, run: Run, w: World, n: string, e: Env)
    ensures RecordsSettle(spec, run.status, StepWith(spec, run, w, n, e).run.status, w)
  {
    if Live(spec, run) {
      LiveMarksAreJustified(spec, run, w, n, e);
    } else {
      IdleStepKeepsRecords(spec, run, w, n, e);
      UnchangedRecordsSettle(spec, run.status, StepWith(spec, run, w, n, e).run.status, w);
    }
  }

  /******* Marks and the duration of the specification *******/

  /** How long the chaos of a specification lasts: its own duration if that is positive, else a minute. */
  predicate Lasts(own: Option<int>, d: int) {
    if own.Some? && own.value > 0 then d == own.value else d == 60 * SECOND
  }

  /** The duration the scenario's own section of the stored specification gives, if any. */
  function OwnDuration(spec: RunSpec): Option<int> {
    if spec.scenario.kind == NetworkChaos then
      match spec.scenario.network case Some(n) => n.duration case None => None
    else
      match spec.scenario.exhaustion case Some(x) => x.duration case None => None
  }

  /** The list in which the scenario keeps its records. */
  function RecordsOf(kind: ScenarioType, st: Status): seq<ContainerRecord> {
    if kind == NetworkChaos then st.networkInjections else st.exhaustionInjections
  }

  /** The pod of the record is there and its container is not known to have terminated. */
  predicate AtWork(rec: ContainerRecord, pods: map<string, Pod>) {
    rec.pod in pods && StateOf(pods[rec.pod].statuses, rec.container) != Some(ContainerTerminated)
  }

  lemma DriverDurationIsTheSpecs(spec: RunSpec, d: int)
    requires UsesContainers(spec.scenario.kind) && Lasts(OwnDuration(spec), d)
    ensures d == if spec.scenario.kind == NetworkChaos then NetworkDuration(Defaulted(spec).scenario.network)
                 else ExhaustionDuration(Defaulted(spec).scenario.exhaustion)
  {
  }

  /**
   In one reconcile, a record whose container is still at work is newly marked only after the duration the stored
   specification gives has passed since its injection.
   */
  lemma MarksWaitForTheDuration(w: World, n: string, e: Env, i: nat, d: int)
    requires Possible(w, Reconcile(n, e)) && UsesContainers(w.runs[n].spec.scenario.kind)
    requires Lasts(OwnDuration(w.runs[n].spec), d)
    requires i < |RecordsOf(w.runs[n].spec.scenario.kind, w.runs[n].status)|
    ensures var kind, run' := w.runs[n].spec.scenario.kind, Reconciled(w, n, e).runs[n];
            var recs, recs' := RecordsOf(kind, w.runs[n].status), RecordsOf(kind, run'.status);
            && |recs'| == |recs|
            && (recs'[i].cleanedUp && !recs[i].cleanedUp && AtWork(recs[i], w.resources.pods) ==>
                  recs[i].injectedAt.Some? && w.clock - recs[i].injectedAt.value >= d)
  {
    var run := w.runs[n];
    DriverDurationIsTheSpecs(run.spec, d);
    MarksAreJustified(Defaulted(run.spec), run, w, n, e);
  }

  lemma CleanupMarks(spec: RunSpec, st: Status, r: Resources, now: int, e: Env, i: nat, d: int)
    requires UsesContainers(spec.scenario.kind) && i < |RecordsOf(spec.scenario.kind, st)| && forall p :: e.getOk(p)
    requires d == if spec.scenario.kind == NetworkChaos then NetworkDuration(spec.scenario.network)
                  else ExhaustionDuration(spec.scenario.exhaustion)
    ensures var recs, st' := RecordsOf(spec.scenario.kind, st), CleanUp(spec, st, r, now, e).status;
            var recs' := RecordsOf(spec.scenario.kind, st');
            && |recs'| == |recs|
            && (recs'[i].cleanedUp <==>
                  || recs[i].cleanedUp || !AtWork(recs[i], r.pods)
                  || (recs[i].injectedAt.Some? && now - recs[i].injectedAt.value >= d))
  {
    SettlingIsSound(st.networkInjections, r.pods, NetworkDuration(spec.scenario.network), now, e.getOk);
    SettlingIsSound(st.exhaustionInjections, r.pods, ExhaustionDuration(spec.scenario.exhaustion), now, e.getOk);
  }

  /**
   And an error-free cleanup before its deadline marks exactly the records that were marked, whose container is no
   longer at work, or whose duration has passed.
   */
  lemma CleanupMarksIff(w: World, n: string, e: Env, i: nat, d: int)
    requires Possible(w, Reconcile(n, e)) && UsesContainers(w.runs[n].spec.scenario.kind)
    requires Live(Defaulted(w.runs[n].spec), w.runs[n]) && w.runs[n].status.phase == PhaseCleaningUp
    requires !CleanupExpired(Defaulted(w.runs[n].spec), w.runs[n].status, w.clock)
    requires (forall p :: e.getOk(p)) && e.patchOk(0) && Lasts(OwnDuration(w.runs[n].spec), d)
    requires i < |RecordsOf(w.runs[n].spec.scenario.kind, w.runs[n].status)|
    ensures var kind, run' := w.runs[n].spec.scenario.kind, Reconciled(w, n, e).runs[n];
            var recs, recs' := RecordsOf(kind, w.runs[n].status), RecordsOf(kind, run'.status);
            && |recs'| == |recs|
            && (recs'[i].cleanedUp <==>
                  || recs[i].cleanedUp || !AtWork(recs[i], w.resources.pods)
                  || (recs[i].injectedAt.Some? && w.clock - recs[i].injectedAt.value >= d))
  {
    var run, spec := w.runs[n], Defaulted(w.runs[n].spec);
    DriverDurationIsTheSpecs(run.spec, d);
    CleanupMarks(spec, run.status, w.resources, w.clock, e, i, d);
    AfterCleanupKeepsRecords(CleanUp(spec, run.status, w.resources, w.clock, e), w.clock);
    assert Step(w, n, e) == CleaningUp(spec, run, w.resources, w.clock, e);
  }

  /** `b` is `a` with some more marks. */
  predicate OnlyMoreMarks(a: seq<ContainerRecord>, b: seq<ContainerRecord>) {
    && |a| == |b|
    && forall i :: 0 <= i < |a| ==>
         b[i] == a[i].(cleanedUp := b[i].cleanedUp) && (a[i].cleanedUp ==> b[i].cleanedUp)
  }

  predicate MarksOnly(a: Status, b: Status) {
    && (a.networkInjections != [] ==> OnlyMoreMarks(a.networkInjections, b.networkInjections))
    && (a.exhaustionInjections != [] ==> OnlyMoreMarks(a.exhaustionInjections, b.exhaustionInjections))
  }

  lemma NextOnlyMarks(w: World, ev: Event, n: string)
    requires n in w.runs && !(ev.Vanish? && ev.name == n)
    ensures n in Next(w, ev).runs && MarksOnly(w.runs[n].status, Next(w, ev).runs[n].status)
  {
    if ev.Reconcile? && ev.name == n && Possible(w, ev) {
      MarksAreJustified(Defaulted(w.runs[n].spec), w.runs[n], w, n, ev.e);
    }
  }

  /** Over a whole run the records on file stay the same containers, and marks only accumulate. */
  lemma {:induction false} MarksAreNeverTakenBack(w: World, evs: seq<Event>, n: string)
    requires n in w.runs && NotVanished(evs, n)
    ensures n in Exec(w, evs).runs && MarksOnly(w.runs[n].status, Exec(w, evs).runs[n].status)
  {
    if evs != [] {
      MarksAreNeverTakenBack(w, evs[..|evs| - 1], n);
      NextOnlyMarks(Exec(w, evs[..|evs| - 1]), evs[|evs| - 1], n);
    }
  }
}
