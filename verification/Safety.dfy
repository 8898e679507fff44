/** The checks that must pass before anything is injected. */
module Safety {
  import opened Wrappers
  import opened ChaosApi
  import opened Cluster

  const DENIED_NAMESPACES: seq<string> := ["kube-system", "kube-public", "kube-node-lease"]

  datatype Rejection =
    DeniedNamespace | SharedCluster | TooFewTaskManagers | ListFailed | TooManyRuns | NetworkTooLong
    | CheckpointStorage | BlastRadius | ExhaustionTooLong

  function WrapInt32(x: int): int {
    (x + 0x8000_0000) % 0x1_0000_0000 - 0x8000_0000
  }

  /** Non-terminal runs other than `self` whose recorded target has that name. */
  function ActivePeers(runs: map<string, Run>, self: string, target: string): set<string> {
    set n | n in runs && n != self && Targets(runs[n], target)
  }

  predicate Targets(run: Run, target: string) {
    && !IsTerminal(run.status.phase)
    && run.status.targetSummary.Some?
    && run.status.targetSummary.value.name == target
  }

  predicate EnoughTaskManagers(selection: Selection, minRemaining: Option<int32>, pods: nat) {
    var count := if selection.count == 0 then 1 else selection.count;
    WrapInt32(pods - count) >= minRemaining.GetOr(1)
  }

  predicate WithinCap(duration: Option<int>, cap: Option<int>) {
    duration.Some? && cap.Some? ==> duration.value <= cap.value
  }

  /** None when every check passes; otherwise the first one that does not. */
  function Check(
      namespace: string, name: string, spec: RunSpec, target: ResolvedTarget, runs: map<string, Run>, listOk: bool)
    : Option<Rejection>
  {
    var s, kind, net := spec.safety, spec.scenario.kind, spec.scenario.network;
    if namespace in DENIED_NAMESPACES then Some(DeniedNamespace)
    else if target.shared && !s.allowSharedCluster then Some(SharedCluster)
    else if kind == TaskManagerPodKill && !EnoughTaskManagers(spec.scenario.selection, s.minRemaining, |target.tmPods|)
    then Some(TooFewTaskManagers)
    else if !listOk then Some(ListFailed)
    else if |ActivePeers(runs, name, target.logicalName)| >= s.maxConcurrent then Some(TooManyRuns)
    else if kind == NetworkPartition || kind == NetworkChaos then CheckNetwork(kind, net, s)
    else if kind == ResourceExhaustion && spec.scenario.exhaustion.Some?
            && !WithinCap(spec.scenario.exhaustion.value.duration, s.maxExhaustionDuration)
    then Some(ExhaustionTooLong)
    else None
  }

  function CheckNetwork(kind: ScenarioType, net: Option<NetworkSpec>, s: SafetySpec): Option<Rejection> {
    if net.None? then None
    else if !WithinCap(net.value.duration, s.maxNetworkDuration) then Some(NetworkTooLong)
    else if net.value.target == TMtoCheckpoint && !s.allowCheckpointStorage then Some(CheckpointStorage)
    else if kind == NetworkPartition && net.value.target == TMtoTM && net.value.direction == Both
            && !s.allowSharedCluster
    then Some(BlastRadius)
    else None
  }

  /******* The checker *******/

  /** Counts the active peers by walking over the listed runs. */
  method CountActive(api: ApiServer, self: string, target: string) returns (active: nat)
    ensures active == |ActivePeers(api.runs, self, target)|
  {
    var names := api.ListRuns();
    active := 0;
    ghost var counted: set<string> := {};
    for i := 0 to |names|
      invariant counted == set n | n in ActivePeers(api.runs, self, target) && n in names[..i]
      invariant active == |counted|
    {
      var peer := names[i];
      assert names[..i + 1] == names[..i] + [peer] && peer !in names[..i];
      if peer == self {
        continue;
      }
      if IsTerminal(api.runs[peer].status.phase) {
        continue;
      }
      var summary := api.runs[peer].status.targetSummary;
      if summary.Some? && summary.value.name == target {
        active := active + 1;
        counted := counted + {peer};
      }
    }
    assert names[..|names|] == names;
    assert counted == ActivePeers(api.runs, self, target);
  }

  method CheckRun(api: ApiServer, run: ChaosRun, target: ResolvedTarget, listOk: bool)
    returns (rejection: Option<Rejection>)
    ensures rejection == Check(api.namespace, run.name, run.spec, target, api.runs, listOk)
  {
    var s, kind := run.spec.safety, run.spec.scenario.kind;
    if api.namespace in DENIED_NAMESPACES {
      return Some(DeniedNamespace);
    }
    if target.shared && !s.allowSharedCluster {
      return Some(SharedCluster);
    }
    if kind == TaskManagerPodKill
       && !EnoughTaskManagers(run.spec.scenario.selection, s.minRemaining, |target.tmPods|) {
      return Some(TooFewTaskManagers);
    }
    if !listOk {
      return Some(ListFailed);
    }
    var active := CountActive(api, run.name, target.logicalName);
    if active >= s.maxConcurrent {
      return Some(TooManyRuns);
    }
    if kind == NetworkPartition || kind == NetworkChaos {
      return CheckNetwork(kind, run.spec.scenario.network, s);
    }
    if kind == ResourceExhaustion && run.spec.scenario.exhaustion.Some?
       && !WithinCap(run.spec.scenario.exhaustion.value.duration, s.maxExhaustionDuration) {
      return Some(ExhaustionTooLong);
    }
    rejection := None;
  }

  /** The narrowing conversion can only make the check stricter. */
  lemma WrapNeverGains(pods: nat, count: int32)
    ensures WrapInt32(pods - count) <= pods - count
  {
  }
}
