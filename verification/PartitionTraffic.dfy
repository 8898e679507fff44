/** What traffic a NetworkPartition takes away, in terms of its own specification. */
module PartitionTraffic {
  import opened Wrappers
  import opened ChaosApi
  import opened NetworkPolicies
  import opened Cluster
  import opened Drivers
  import opened Lifecycle
  import opened Execution
  import opened Invariants
  import opened Guarantees
  import opened Partition

  predicate IsComponent(pod: Labels, component: string) {
    "component" in pod && pod["component"] == component
  }

  /** The specification speaks about this direction. */
  predicate Directed(d: Direction, egress: bool) {
    (d == Ingress ==> !egress) && (d == Egress ==> egress)
  }

  /** IPv4 traffic to a place outside the CIDR, on the given port if there is one: all an external target leaves. */
  predicate Elsewhere(x: ExternalEndpoint, f: Flow, inside: CidrReading) {
    && f.peer.address.V4? && !inside(x.cidr, f.peer.address.bits)
    && (x.port != 0 ==> f.protocol == TCP && f.port == x.port)
  }

  /** Exactly the traffic a partition cuts off. */
  predicate CutOff(n: NetworkSpec, f: Flow, inside: CidrReading) {
    Directed(n.direction, f.egress) &&
    match n.target
    case TMtoJM => IsComponent(f.pod, "jobmanager")
    case TMtoTM => IsComponent(f.pod, "taskmanager")
    case TMtoCheckpoint => CutsEndpoint(n, f, inside)
    case TMtoExternal => CutsEndpoint(n, f, inside)
    case _ => false
  }

  predicate CutsEndpoint(n: NetworkSpec, f: Flow, inside: CidrReading) {
    && IsComponent(f.pod, "taskmanager")
    && (f.egress && n.endpoint.Some? ==> !Elsewhere(n.endpoint.value, f, inside))
  }

  /** All policies of the cluster. */
  ghost function Present(policies: map<string, Policy>): set<Policy> {
    set p | p in policies.Values
  }

  /** The two names a run uses are not taken. */
  predicate Unused(policies: map<string, Policy>, run: string) {
    run + "-netpol-ingress" !in policies && run + "-netpol-egress" !in policies
  }

  lemma ComponentIsLabel(component: string, pod: Labels)
    ensures Selects(map["component" := component], pod) <==> IsComponent(pod, component)
  {
    var selector := map["component" := component];
    assert "component" in selector;
  }

  /** What the driver resolves the specification to blocks what the specification says. */
  lemma SpecIsBlocked(run: string, n: NetworkSpec, s: PolicySpec, f: Flow, inside: CidrReading)
    requires ResolvePeers(n).Some?
    requires s == PolicySpec("", run, ResolvePeers(n).value.0, ResolvePeers(n).value.1, n.direction,
                             match n.endpoint case Some(x) => x.port case None => 0)
    ensures Blocked(s, f, inside) <==> CutOff(n, f, inside)
  {
    ComponentIsLabel("jobmanager", f.pod);
    ComponentIsLabel("taskmanager", f.pod);
  }

  lemma {:induction false} CreatedAreAdded(ps: map<string, Policy>, todo: seq<Policy>, fault: string -> Fault)
    requires DistinctNames(todo) && (forall p <- todo :: p.name !in ps) && CreatedAll(ps, todo, fault).ok
    ensures forall n :: n in CreatedAll(ps, todo, fault).policies <==> n in ps || exists p <- todo :: p.name == n
    ensures forall p <- todo :: CreatedAll(ps, todo, fault).policies[p.name] == p
    ensures forall n <- ps :: CreatedAll(ps, todo, fault).policies[n] == ps[n]
    decreases |todo|
  {
    if todo != [] {
      var ps' := CreatePolicy(ps, todo[0], fault(todo[0].name)).0;
      assert todo == [todo[0]] + todo[1..];
      CreatedAreAdded(ps', todo[1..], fault);
    }
  }

  lemma PresentAfterCreation(ps: map<string, Policy>, todo: seq<Policy>, after: map<string, Policy>)
    requires forall n :: n in after <==> n in ps || exists p <- todo :: p.name == n
    requires forall p <- todo :: p.name in after && after[p.name] == p
    requires forall n <- ps :: n in after && after[n] == ps[n]
    ensures Present(after) == Present(ps) + ToSet(todo)
  {
    forall p | p in Present(after) ensures p in Present(ps) + ToSet(todo) {
      var n :| n in after && after[n] == p;
      if n in ps { assert ps[n] in ps.Values; }
    }
    forall p | p in Present(ps) ensures p in Present(after) {
      var n :| n in ps && ps[n] == p;
      assert after[n] in after.Values;
    }
    forall p | p in ToSet(todo) ensures p in Present(after) {
      assert after[p.name] in after.Values;
    }
  }

  lemma DueNamesAreUnused(run: string, n: NetworkSpec, policies: map<string, Policy>)
    requires PoliciesFor(run, n).Some? && Unused(policies, run)
    ensures DistinctNames(PoliciesFor(run, n).value)
    ensures forall p <- PoliciesFor(run, n).value :: p.name !in policies
  {
    PolicyNamesAreDistinct(run, run);
    PoliciesCarryTheRun(run, n);
  }

  /**
   After a successful injection into a cluster where no other policy isolates the pod for this kind of traffic, a
   flow is disallowed exactly when the specification says so.
   */
  lemma InjectedPartitionBlocksExactly(
      run: string, n: NetworkSpec, st: Status, target: ResolvedTarget, r: Resources, e: Env, f: Flow, inside: CidrReading)
    requires InjectPartition(run, Some(n), st, target, r, e).outcome.Injected?
    requires Unused(r.policies, run) && CoversAll(inside) && forall p <- Present(r.policies) :: !Isolates(p, f)
    ensures var after := InjectPartition(run, Some(n), st, target, r, e).resources.policies;
            !Allowed(Present(after), f, inside) <==> CutOff(n, f, inside)
  {
    var (labels, cidr) := ResolvePeers(n).value;
    var s := PolicySpec("", run, labels, cidr, n.direction, match n.endpoint case Some(x) => x.port case None => 0);
    var due := PoliciesFor(run, n).value;
    DueNamesAreUnused(run, n, r.policies);
    CreatedAreAdded(r.policies, due, e.createFault);
    PresentAfterCreation(r.policies, due, CreatedAll(r.policies, due, e.createFault).policies);
    SpecIsBlocked(run, n, s, f, inside);
    PartitionBlocksExactly(Present(r.policies), s, f, inside);
  }

  /** Which specifications the driver can act on, and the errors of the API calls are the only other obstacle. */
  lemma PartitionInjectsIff(
      run: string, network: Option<NetworkSpec>, st: Status, target: ResolvedTarget, r: Resources, e: Env)
    requires Unused(r.policies, run) && forall p :: e.createFault(p) == NoFault
    ensures InjectPartition(run, network, st, target, r, e).outcome.Injected? <==>
              && network.Some?
              && network.value.target in {TMtoTM, TMtoJM, TMtoCheckpoint, TMtoExternal}
              && (External(network.value.target) ==>
                    network.value.endpoint.Some? && network.value.endpoint.value.cidr != "")
  {
    if network.Some? && PoliciesFor(run, network.value).Some? {
      DueNamesAreUnused(run, network.value, r.policies);
      CreationStopsAtTheFirstFault(r.policies, PoliciesFor(run, network.value).value, e.createFault);
    }
  }

  /** The names of the policies of a direction. */
  function NamesFor(run: string, d: Direction): seq<string> {
    (if d == Egress then [] else [run + "-netpol-ingress"]) + (if d == Ingress then [] else [run + "-netpol-egress"])
  }

  lemma {:induction false} CreatedNames(ps: map<string, Policy>, todo: seq<Policy>, fault: string -> Fault)
    requires CreatedAll(ps, todo, fault).ok
    ensures CreatedAll(ps, todo, fault).names == seq(|todo|, i requires 0 <= i < |todo| => todo[i].name)
    decreases |todo|
  {
    if todo != [] {
      CreatedNames(CreatePolicy(ps, todo[0], fault(todo[0].name)).0, todo[1..], fault);
    }
  }

  /** What a successful injection puts on record: the policies, created or found, and every pod of the target. */
  lemma PartitionRecordsItsPolicies(
      run: string, n: NetworkSpec, st: Status, target: ResolvedTarget, r: Resources, e: Env)
    requires InjectPartition(run, Some(n), st, target, r, e).outcome.Injected?
    ensures var s := InjectPartition(run, Some(n), st, target, r, e);
            && s.status == st.(networkPolicies := st.networkPolicies + NamesFor(run, n.direction),
                               selectedPods := target.tmPods)
            && s.outcome.selected == target.tmPods && s.outcome.injected == target.tmPods
  {
    CreatedNames(r.policies, PoliciesFor(run, n).value, e.createFault);
  }

  lemma {:induction false} CreatingAgainChangesNothing(ps: map<string, Policy>, todo: seq<Policy>, fault: string -> Fault)
    requires forall p <- todo :: p.name in ps
    ensures CreatedAll(ps, todo, fault).policies == ps
    decreases |todo|
  {
    if todo != [] {
      CreatingAgainChangesNothing(ps, todo[1..], fault);
    }
  }

  /** An injection repeated after a lost patch leaves the policies of the first one as they are. */
  lemma RepeatedPartitionIsTheSame(
      run: string, n: NetworkSpec, st: Status, st': Status, target: ResolvedTarget, target': ResolvedTarget,
      r: Resources, e: Env, e': Env)
    requires InjectPartition(run, Some(n), st, target, r, e).outcome.Injected?
    ensures var after := InjectPartition(run, Some(n), st, target, r, e).resources;
            InjectPartition(run, Some(n), st', target', after, e').resources == after
  {
    var due := PoliciesFor(run, n).value;
    CreationOnlyAdds(r.policies, due, e.createFault);
    CreatingAgainChangesNothing(CreatedAll(r.policies, due, e.createFault).policies, due, e'.createFault);
  }

  lemma ObservedDriverInjected(spec: RunSpec, run: Run, step: InjectStep, count: nat, now: int, e: Env)
    requires run.status.phase == PhaseInjecting && step.status.phase == PhaseInjecting
    requires AfterDriver(spec, run, step, count, now, e).status.phase == PhaseObserving
    ensures step.outcome.Injected?
  {
  }

  /** So a partition that goes from Injecting to Observing has just cut off exactly what its specification says. */
  lemma ObservedPartitionCutsOff(w: World, n: string, e: Env, f: Flow, inside: CidrReading)
    requires Possible(w, Reconcile(n, e)) && Defaulted(w.runs[n].spec).scenario.kind == NetworkPartition
    requires w.runs[n].status.phase == PhaseInjecting && w.runs[n].status.injectedPods == []
    requires Reconciled(w, n, e).runs[n].status.phase == PhaseObserving
    requires Unused(w.resources.policies, n) && CoversAll(inside)
    requires forall p <- Present(w.resources.policies) :: !Isolates(p, f)
    ensures Defaulted(w.runs[n].spec).scenario.network.Some?
    ensures !Allowed(Present(Reconciled(w, n, e).resources.policies), f, inside) <==>
              CutOff(Defaulted(w.runs[n].spec).scenario.network.value, f, inside)
  {
    var run, spec := w.runs[n], Defaulted(w.runs[n].spec);
    assert Live(spec, run) && PassesChecks(w.namespace, n, spec, w.runs, e) && !spec.safety.dryRun;
    var st, target := Cleared(run.status, e.target.value), e.target.value;
    var step := Lifecycle.Inject(n, spec, st, target, w.resources, w.clock, e);
    assert Step(w, n, e) == Local(AfterDriver(spec, run, step, |target.tmPods|, w.clock, e), step.resources);
    ObservedDriverInjected(spec, run, step, |target.tmPods|, w.clock, e);
    InjectedPartitionBlocksExactly(n, spec.scenario.network.value, st, target, w.resources, e, f, inside);
  }
}
