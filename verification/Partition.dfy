/** The NetworkPartition driver: creating the policies of a run and removing them by label. */
module Partition {
  import opened Wrappers
  import opened ChaosApi
  import opened NetworkPolicies
  import opened Cluster
  import opened Drivers

  const TM_LABELS: Labels := map["component" := "taskmanager"]
  const JM_LABELS: Labels := map["component" := "jobmanager"]

  /** The pods the policies select and the CIDR they block; None is an unusable target. */
  function ResolvePeers(n: NetworkSpec): Option<(Labels, string)> {
    match n.target
    case TMtoTM => Some((TM_LABELS, ""))
    case TMtoJM => Some((JM_LABELS, ""))
    case TMtoCheckpoint => ExternalPeers(n)
    case TMtoExternal => ExternalPeers(n)
    case UnsetTarget => None
    case UnsupportedNetworkTarget => None
  }

  function ExternalPeers(n: NetworkSpec): Option<(Labels, string)> {
    if n.endpoint.None? || n.endpoint.value.cidr == "" then None else Some((TM_LABELS, n.endpoint.value.cidr))
  }

  function PoliciesFor(run: string, n: NetworkSpec): Option<seq<Policy>> {
    match ResolvePeers(n)
    case None => None
    case Some((labels, cidr)) =>
      var port := match n.endpoint case Some(x) => x.port case None => 0;
      Some(DriverPolicies(PolicySpec("", run, labels, cidr, n.direction, port)))
  }

  datatype Creation = Creation(policies: map<string, Policy>, names: seq<string>, ok: bool)

  /** Creates in order and stops at the first error that is not AlreadyExists. */
  function CreatedAll(ps: map<string, Policy>, todo: seq<Policy>, fault: string -> Fault): Creation
    decreases |todo|
  {
    if todo == [] then Creation(ps, [], true)
    else
      var (ps', outcome) := CreatePolicy(ps, todo[0], fault(todo[0].name));
      if outcome == CreateFailed then Creation(ps', [], false)
      else
        var rest := CreatedAll(ps', todo[1..], fault);
        rest.(names := [todo[0].name] + rest.names)
  }

  function InjectPartition(
      run: string, network: Option<NetworkSpec>, st: Status, target: ResolvedTarget, r: Resources, e: Env)
    : InjectStep
  {
    if network.None? || PoliciesFor(run, network.value).None? then InjectStep(st, r, InjectFailed)
    else
      var c := CreatedAll(r.policies, PoliciesFor(run, network.value).value, e.createFault);
      var r' := r.(policies := c.policies);
      if !c.ok then InjectStep(st, r', InjectFailed)
      else
        InjectStep(st.(networkPolicies := st.networkPolicies + c.names, selectedPods := target.tmPods), r',
                   Injected(target.tmPods, target.tmPods))
  }

  /** Deletes in order and stops at the first error. */
  function DeletedAll(ps: map<string, Policy>, names: seq<string>, fault: string -> Fault)
    : (map<string, Policy>, bool)
  {
    if names == [] then (ps, true)
    else
      var (ps', ok) := Delete(ps, names[0], fault(names[0]));
      if !ok then (ps', false) else DeletedAll(ps', names[1..], fault)
  }

  function CleanUpPartition(st: Status, r: Resources, e: Env): CleanupStep {
    if !e.listPoliciesOk then CleanupStep(st, r, false)
    else
      var (ps, ok) := DeletedAll(r.policies, e.policyOrder, e.deleteFault);
      CleanupStep(if ok then st.(networkPolicies := []) else st, r.(policies := ps), ok)
  }

  /******* The driver *******/

  method CreatePolicies(api: ApiServer, todo: seq<Policy>, fault: string -> Fault)
    returns (created: seq<string>, ok: bool)
    modifies api`policies
    ensures Creation(api.policies, created, ok) == CreatedAll(old(api.policies), todo, fault)
  {
    created, ok := [], true;
    var i := 0;
    while i < |todo|
      invariant i <= |todo| && ok
      invariant var rest := CreatedAll(api.policies, todo[i..], fault);
                CreatedAll(old(api.policies), todo, fault) == rest.(names := created + rest.names)
    {
      assert todo[i..][1..] == todo[i + 1..];
      var outcome := api.Create(todo[i], fault(todo[i].name));
      if outcome == CreateFailed {
        return created, false;
      }
      created := created + [todo[i].name];
      i := i + 1;
    }
  }

  method Inject(api: ApiServer, run: ChaosRun, target: ResolvedTarget, e: Env) returns (outcome: Outcome)
    modifies api`policies, run`status
    ensures InjectStep(run.status, Resources(api.policies, api.pods), outcome) ==
            InjectPartition(run.name, run.spec.scenario.network, old(run.status), target,
                            old(Resources(api.policies, api.pods)), e)
  {
    var network := run.spec.scenario.network;
    if network.None? || PoliciesFor(run.name, network.value).None? {
      return InjectFailed;
    }
    var created, ok := CreatePolicies(api, PoliciesFor(run.name, network.value).value, e.createFault);
    if !ok {
      return InjectFailed;
    }
    run.status := run.status.(networkPolicies := run.status.networkPolicies + created);
    run.status := run.status.(selectedPods := target.tmPods);
    outcome := Injected(target.tmPods, target.tmPods);
  }

  method Cleanup(api: ApiServer, run: ChaosRun, e: Env) returns (ok: bool)
    modifies api`policies, run`status
    ensures CleanupStep(run.status, Resources(api.policies, api.pods), ok) ==
            CleanUpPartition(old(run.status), old(Resources(api.policies, api.pods)), e)
  {
    if !e.listPoliciesOk {
      return false;
    }
    var i := 0;
    while i < |e.policyOrder|
      invariant i <= |e.policyOrder|
      invariant DeletedAll(old(api.policies), e.policyOrder, e.deleteFault)
             == DeletedAll(api.policies, e.policyOrder[i..], e.deleteFault)
      modifies api`policies
    {
      var name := e.policyOrder[i];
      assert e.policyOrder[i..][1..] == e.policyOrder[i + 1..];
      ok := api.DeletePolicy(name, e.deleteFault(name));
      if !ok {
        return;
      }
      i := i + 1;
    }
    assert e.policyOrder[i..] == [];
    run.status := run.status.(networkPolicies := []);
    ok := true;
  }

  /******* What the driver guarantees *******/

  /** Creation only adds policies of its own list, so nothing that already existed changes. */
  lemma {:induction false} CreationOnlyAdds(ps: map<string, Policy>, todo: seq<Policy>, fault: string -> Fault)
    ensures var c := CreatedAll(ps, todo, fault);
            && ps.Keys <= c.policies.Keys
            && (forall n <- ps :: c.policies[n] == ps[n])
            && (forall n <- c.policies :: n !in ps ==> exists p <- todo :: p.name == n && c.policies[n] == p)
            && (c.ok ==> |c.names| == |todo|)
            && (c.ok ==> forall p <- todo :: p.name in c.policies)
    decreases |todo|
  {
    if todo != [] {
      var (ps', outcome) := CreatePolicy(ps, todo[0], fault(todo[0].name));
      if outcome != CreateFailed {
        CreationOnlyAdds(ps', todo[1..], fault);
        assert todo == [todo[0]] + todo[1..];
      }
    }
  }

  predicate DistinctNames(todo: seq<Policy>) {
    forall i, j :: 0 <= i < j < |todo| ==> todo[i].name != todo[j].name
  }

  /** From an empty start, creation succeeds iff no call fails, and leaves nothing iff the first call had no effect. */
  lemma {:induction false} CreationStopsAtTheFirstFault(
      ps: map<string, Policy>, todo: seq<Policy>, fault: string -> Fault)
    requires DistinctNames(todo) && forall p <- todo :: p.name !in ps
    ensures var c := CreatedAll(ps, todo, fault);
            && (c.ok <==> forall p <- todo :: fault(p.name) == NoFault)
            && (todo != [] ==> (todo[0].name in c.policies <==> fault(todo[0].name) != NotApplied))
            && (todo != [] && fault(todo[0].name) == NotApplied ==> c.policies == ps)
    decreases |todo|
  {
    if todo != [] {
      var (ps', outcome) := CreatePolicy(ps, todo[0], fault(todo[0].name));
      assert todo == [todo[0]] + todo[1..];
      if outcome != CreateFailed {
        CreationStopsAtTheFirstFault(ps', todo[1..], fault);
        CreationOnlyAdds(ps', todo[1..], fault);
      }
    }
  }

  lemma {:induction false} DeletionOnlyRemoves(ps: map<string, Policy>, names: seq<string>, fault: string -> Fault)
    ensures var (ps', ok) := DeletedAll(ps, names, fault);
            && ps'.Keys <= ps.Keys
            && (forall n <- ps' :: ps'[n] == ps[n])
            && (forall n <- ps :: n !in names ==> n in ps')
            && (ok ==> forall n <- names :: n !in ps')
  {
    if names != [] {
      var (ps', ok) := Delete(ps, names[0], fault(names[0]));
      if ok {
        DeletionOnlyRemoves(ps', names[1..], fault);
        assert names == [names[0]] + names[1..];
      }
    }
  }

  lemma {:induction false} DeletesWithoutErrorIff(ps: map<string, Policy>, names: seq<string>, fault: string -> Fault)
    ensures DeletedAll(ps, names, fault).1 <==> forall n <- names :: fault(n) == NoFault
  {
    if names != [] {
      DeletesWithoutErrorIff(Delete(ps, names[0], fault(names[0])).0, names[1..], fault);
      assert names == [names[0]] + names[1..];
    }
  }

  lemma PoliciesCarryTheRun(run: string, n: NetworkSpec)
    requires PoliciesFor(run, n).Some?
    ensures forall p <- PoliciesFor(run, n).value ::
              p.runName == Some(run) && (p.name == IngressName(run) || p.name == EgressName(run))
  {
  }

  /** Injection never touches a policy that exists, and what it adds carries the run's label. */
  lemma InjectionAddsOnlyOwnPolicies(
      run: string, network: Option<NetworkSpec>, st: Status, target: ResolvedTarget, r: Resources, e: Env)
    ensures var r' := InjectPartition(run, network, st, target, r, e).resources;
            && r'.pods == r.pods
            && r.policies.Keys <= r'.policies.Keys
            && (forall n <- r.policies :: r'.policies[n] == r.policies[n])
            && (forall n <- r'.policies :: n !in r.policies ==> r'.policies[n].runName == Some(run))
  {
    if network.Some? && PoliciesFor(run, network.value).Some? {
      PoliciesCarryTheRun(run, network.value);
      CreationOnlyAdds(r.policies, PoliciesFor(run, network.value).value, e.createFault);
    }
  }

  /** A failed injection removes nothing, so it leaves a policy behind exactly when the first creation had an effect. */
  lemma FailedInjectionIsCleanIffNothingWasCreated(
      run: string, n: NetworkSpec, st: Status, target: ResolvedTarget, r: Resources, e: Env)
    requires PoliciesFor(run, n).Some? && Labelled(r.policies, run) == {}
    requires forall p <- PoliciesFor(run, n).value :: p.name !in r.policies
    ensures var s, due := InjectPartition(run, Some(n), st, target, r, e), PoliciesFor(run, n).value;
            && due != []
            && (s.outcome.InjectFailed? <==> exists p <- due :: e.createFault(p.name) != NoFault)
            && (s.outcome.InjectFailed? ==>
                  (Labelled(s.resources.policies, run) == {} <==> e.createFault(due[0].name) == NotApplied))
  {
    var due, c := PoliciesFor(run, n).value, CreatedAll(r.policies, PoliciesFor(run, n).value, e.createFault);
    PolicyNamesAreDistinct(run, run);
    PoliciesCarryTheRun(run, n);
    CreationStopsAtTheFirstFault(r.policies, due, e.createFault);
    CreationOnlyAdds(r.policies, due, e.createFault);
    if due[0].name in c.policies {
      assert due[0].name in Labelled(c.policies, run);
    }
  }

  /** Cleanup removes only policies with the run's label, and all of them when it reports success. */
  lemma CleanupRemovesExactlyTheRun(run: string, st: Status, r: Resources, e: Env)
    requires Enumerates(e.policyOrder, Labelled(r.policies, run))
    ensures var c := CleanUpPartition(st, r, e);
            && c.resources.pods == r.pods
            && c.resources.policies.Keys <= r.policies.Keys
            && (forall n <- c.resources.policies :: c.resources.policies[n] == r.policies[n])
            && (forall n <- r.policies :: r.policies[n].runName != Some(run) ==> n in c.resources.policies)
            && (c.ok ==> Labelled(c.resources.policies, run) == {} && c.status.networkPolicies == [])
            && (!c.ok ==> c.status == st)
  {
    DeletionOnlyRemoves(r.policies, e.policyOrder, e.deleteFault);
  }
}
