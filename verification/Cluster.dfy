/**
 The API server as the operator sees it, and the in-memory copy of a run.

 What the world answers during one reconcile is collected in an `Env`. Any API call may fail; a
 process that dies half way is a reconcile in which every later call fails without effect.
 */
module Cluster {
  import opened Wrappers
  import opened ChaosApi
  import opened NetworkPolicies

  datatype ContainerState = ContainerWaiting | ContainerRunning | ContainerTerminated

  datatype ContainerStatus = ContainerStatus(name: string, state: ContainerState)

  /** `ready` is the readiness of each ordinary container, `containers` the ephemeral ones by name. */
  datatype Pod = Pod(running: bool, ready: seq<bool>, containers: seq<string>, statuses: seq<ContainerStatus>)

  datatype Resources = Resources(policies: map<string, Policy>, pods: map<string, Pod>)

  /** One namespace. */
  datatype World = World(namespace: string, runs: map<string, Run>, resources: Resources, clock: int)

  datatype ResolvedTarget = ResolvedTarget(platform: string, logicalName: string, tmPods: seq<string>, shared: bool)

  datatype Probe = Stable | NotStable | ProbeFailed

  /** A request that errors may or may not have taken effect. */
  datatype Fault = NoFault | NotApplied | AppliedButFailed

  /**
   `probeTime` is what passes between stamping the start of a run and reading the clock again after the
   checkpoint probe: the status patch and the requests of the probe.
   `target` None is a resolver error; `jobs` and `taskManagers` None are Flink REST errors.
   `swaps` are the index pairs the shuffle exchanges, `policyOrder` the order of a policy listing.
   */
  datatype Env = Env(
    target: Option<ResolvedTarget>, probe: Probe, probeTime: nat, jobs: Option<seq<string>>, taskManagers: Option<nat>,
    swaps: seq<(nat, nat)>, policyOrder: seq<string>, listRunsOk: bool, listPoliciesOk: bool,
    patchOk: nat -> bool, getOk: string -> bool,
    createFault: string -> Fault, deleteFault: string -> Fault, updateFault: string -> Fault)

  datatype CreateOutcome = Created | AlreadyExists | CreateFailed

  function CreatePolicy(ps: map<string, Policy>, p: Policy, f: Fault): (map<string, Policy>, CreateOutcome) {
    if f == NotApplied then (ps, CreateFailed)
    else if p.name in ps then (ps, if f == NoFault then AlreadyExists else CreateFailed)
    else (ps[p.name := p], if f == NoFault then Created else CreateFailed)
  }

  /** Deleting what is already gone is not an error for the callers. */
  function Delete<T>(m: map<string, T>, name: string, f: Fault): (map<string, T>, bool) {
    (if f == NotApplied then m else m - {name}, f == NoFault)
  }

  /** The ephemeralcontainers subresource refuses a second container of the same name. */
  function AddContainer(pods: map<string, Pod>, pod: string, container: string, f: Fault): (map<string, Pod>, bool) {
    if pod !in pods || container in pods[pod].containers || f == NotApplied then (pods, false)
    else (pods[pod := pods[pod].(containers := pods[pod].containers + [container])], f == NoFault)
  }

  /** Names of the policies that carry the label chaos.flink.io/run-name=run. */
  function Labelled(ps: map<string, Policy>, run: string): set<string> {
    set n | n in ps && ps[n].runName == Some(run)
  }

  predicate NoDuplicates<T(==)>(s: seq<T>) {
    forall i, j :: 0 <= i < j < |s| ==> s[i] != s[j]
  }

  /** `names` lists exactly the elements of `s`, each once. */
  predicate Enumerates<T(==)>(names: seq<T>, s: set<T>) {
    NoDuplicates(names) && (forall n <- names :: n in s) && (forall n <- s :: n in names)
  }

  lemma SubsetIsSmaller<T>(a: set<T>, b: set<T>)
    requires a <= b
    ensures |a| <= |b|
    ensures |a| == |b| ==> a == b
  {
    assert b == a + (b - a);
  }

  /** The object a reconcile works on: a copy of the stored run, with defaults filled in. */
  class ChaosRun {
    const name: string
    var spec: RunSpec
    var status: Status
    var finalizer: bool
    const deleting: bool

    constructor (name: string, stored: Run)
      ensures this.name == name && spec == stored.spec && status == stored.status
      ensures finalizer == stored.finalizer && deleting == stored.deleting
    {
      this.name := name;
      spec := stored.spec;
      status := stored.status;
      finalizer := stored.finalizer;
      deleting := stored.deleting;
    }
  }

  class ApiServer {
    const namespace: string
    var runs: map<string, Run>
    var policies: map<string, Policy>
    var pods: map<string, Pod>
    var clock: int

    constructor (namespace: string)
      ensures State() == World(namespace, map[], Resources(map[], map[]), 0)
    {
      this.namespace := namespace;
      runs, policies, pods, clock := map[], map[], map[], 0;
    }

    function State(): World
      reads this
    {
      World(namespace, runs, Resources(policies, pods), clock)
    }

    method PatchStatus(run: ChaosRun, ok: bool)
      requires run.name in runs
      modifies this`runs
      ensures runs == if ok then old(runs)[run.name := old(runs)[run.name].(status := run.status)] else old(runs)
    {
      if ok {
        runs := runs[run.name := runs[run.name].(status := run.status)];
      }
    }

    method PatchFinalizer(run: ChaosRun, ok: bool)
      requires run.name in runs
      modifies this`runs
      ensures runs == if ok then old(runs)[run.name := old(runs)[run.name].(finalizer := run.finalizer)] else old(runs)
    {
      if ok {
        runs := runs[run.name := runs[run.name].(finalizer := run.finalizer)];
      }
    }

    /** The runs of the namespace in some order. */
    method ListRuns() returns (names: seq<string>)
      ensures Enumerates(names, runs.Keys)
    {
      names := [];
      var left := runs.Keys;
      while left != {}
        invariant Enumerates(names, runs.Keys - left) && left <= runs.Keys
        decreases left
      {
        var n :| n in left;
        names, left := names + [n], left - {n};
      }
    }

    method Create(p: Policy, f: Fault) returns (outcome: CreateOutcome)
      modifies this`policies
      ensures (policies, outcome) == CreatePolicy(old(policies), p, f)
    {
      outcome := CreatePolicy(policies, p, f).1;
      policies := CreatePolicy(policies, p, f).0;
    }

    method DeletePolicy(name: string, f: Fault) returns (ok: bool)
      modifies this`policies
      ensures (policies, ok) == Delete(old(policies), name, f)
    {
      ok := f == NoFault;
      policies := Delete(policies, name, f).0;
    }

    method DeletePod(name: string, f: Fault) returns (ok: bool)
      modifies this`pods
      ensures (pods, ok) == Delete(old(pods), name, f)
    {
      ok := f == NoFault;
      pods := Delete(pods, name, f).0;
    }

    method UpdateEphemeralContainers(pod: string, container: string, f: Fault) returns (ok: bool)
      modifies this`pods
      ensures (pods, ok) == AddContainer(old(pods), pod, container, f)
    {
      ok := AddContainer(pods, pod, container, f).1;
      pods := AddContainer(pods, pod, container, f).0;
    }
  }
}
