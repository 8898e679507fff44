/**
 The ChaosRun resource: specification, status, defaults and validation.
 Durations and times are whole nanoseconds.
 */
module ChaosApi {
  import opened Wrappers

  const SECOND: int := 1_000_000_000
  const MINUTE: int := 60 * SECOND

  type int32 = x: int | -0x8000_0000 <= x < 0x8000_0000

  /******* Specification *******/

  datatype TargetType = FlinkDeployment | VervericaDeployment | PodSelector | UnsupportedTarget

  /** `selectorTerms` counts the label and expression requirements of the selector; None when it is absent. */
  datatype TargetSpec = TargetSpec(
    kind: TargetType, name: string, deploymentId: string, deploymentName: string, selectorTerms: Option<nat>)

  datatype ScenarioType =
    TaskManagerPodKill | NetworkPartition | NetworkChaos | ResourceExhaustion | UnsetScenario | UnsupportedScenario

  datatype SelectionMode = Random | Explicit | UnsetMode | UnsupportedMode

  datatype Selection = Selection(mode: SelectionMode, count: int32, podNames: seq<string>)

  datatype NetworkTarget = TMtoTM | TMtoJM | TMtoCheckpoint | TMtoExternal | UnsetTarget | UnsupportedNetworkTarget

  datatype Direction = Ingress | Egress | Both | UnsetDirection

  datatype ExternalEndpoint = ExternalEndpoint(cidr: string, port: int32)

  datatype NetworkSpec = NetworkSpec(
    target: NetworkTarget, direction: Direction, endpoint: Option<ExternalEndpoint>,
    latency: Option<int>, jitter: Option<int>, loss: Option<int32>, bandwidth: string, duration: Option<int>)

  datatype ExhaustionMode = CPU | Memory | UnsupportedExhaustion

  datatype ExhaustionSpec = ExhaustionSpec(
    mode: ExhaustionMode, workers: int32, memoryPercent: int32, duration: Option<int>)

  datatype ScenarioSpec = ScenarioSpec(
    kind: ScenarioType, selection: Selection, network: Option<NetworkSpec>, exhaustion: Option<ExhaustionSpec>)

  datatype FlinkRest = FlinkRest(
    enabled: bool, endpoint: string, requireStableCheckpoint: bool, stableWindow: int32, waitTimeout: Option<int>)

  datatype ObserveSpec = ObserveSpec(enabled: bool, timeout: int, pollInterval: int, rest: FlinkRest)

  datatype SafetySpec = SafetySpec(
    dryRun: bool, maxConcurrent: int, minRemaining: Option<int32>, allowSharedCluster: bool,
    maxNetworkDuration: Option<int>, allowCheckpointStorage: bool, maxExhaustionDuration: Option<int>)

  datatype RunSpec = RunSpec(
    target: TargetSpec, scenario: ScenarioSpec, observe: ObserveSpec, safety: SafetySpec, abort: bool)

  /******* Status *******/

  datatype Phase =
    PhaseUnset | PhasePending | PhaseInjecting | PhaseObserving | PhaseCleaningUp
    | PhaseCompleted | PhaseAborted | PhaseFailed

  datatype Verdict = NoVerdict | VerdictPassed | VerdictFailed | VerdictInconclusive

  datatype ConditionType =
    TargetResolved | SafetyChecksPassed | InjectionStarted | InjectionCompleted
    | RecoveryObserved | AbortRequested | RunFailed | NetworkChaosCleanedUp

  /** One ephemeral container started by a driver. */
  datatype ContainerRecord = ContainerRecord(pod: string, container: string, injectedAt: Option<int>, cleanedUp: bool)

  datatype Observation = Observation(
    countBefore: nat, countAfter: nat, recoveredAt: Option<int>, recoverySeconds: Option<int>)

  datatype TargetSummary = TargetSummary(platform: string, name: string)

  /** Conditions form a list keyed by type; a map from type to "status is True" is that list without its order. */
  datatype Status = Status(
    phase: Phase, verdict: Verdict,
    startedAt: Option<int>, observingStartedAt: Option<int>, endedAt: Option<int>,
    selectedPods: seq<string>, injectedPods: seq<string>, replacementObserved: bool,
    targetSummary: Option<TargetSummary>, observation: Option<Observation>,
    networkPolicies: seq<string>,
    networkInjections: seq<ContainerRecord>, exhaustionInjections: seq<ContainerRecord>,
    conditions: map<ConditionType, bool>)

  /** The status of a ChaosRun the API server has just accepted. */
  const FRESH_STATUS: Status :=
    Status(PhaseUnset, NoVerdict, None, None, None, [], [], false, None, None, [], [], [], map[])

  /** A stored ChaosRun; `finalizer` says whether chaos.flink.io/cleanup is present. */
  datatype Run = Run(spec: RunSpec, status: Status, finalizer: bool, deleting: bool)

  /** Scenarios that leave resources behind: policies or ephemeral containers. */
  predicate NeedsCleanup(kind: ScenarioType) {
    kind == NetworkPartition || kind == NetworkChaos || kind == ResourceExhaustion
  }

  predicate UsesContainers(kind: ScenarioType) { kind == NetworkChaos || kind == ResourceExhaustion }

  predicate IsTerminal(phase: Phase) {
    phase == PhaseCompleted || phase == PhaseAborted || phase == PhaseFailed
  }

  /** Timestamps are stored as RFC 3339 text, which keeps whole seconds. */
  function Stamp(now: int): (t: int)
    ensures t <= now < t + SECOND
  {
    now - now % SECOND
  }

  /******* Defaults *******/

  function DefaultSelection(s: Selection): Selection {
    var mode := if s.mode == UnsetMode then Random else s.mode;
    Selection(mode, if mode == Random && s.count == 0 then 1 else s.count, s.podNames)
  }

  function DefaultNetwork(n: NetworkSpec): NetworkSpec {
    n.(direction := if n.direction == UnsetDirection then Both else n.direction,
       duration := Some(n.duration.GetOr(60 * SECOND)))
  }

  function DefaultExhaustion(x: ExhaustionSpec): ExhaustionSpec {
    x.(workers := if x.workers == 0 then 1 else x.workers,
       memoryPercent := if x.mode == Memory && x.memoryPercent == 0 then 80 else x.memoryPercent,
       duration := Some(x.duration.GetOr(60 * SECOND)))
  }

  function DefaultScenario(s: ScenarioSpec): ScenarioSpec {
    ScenarioSpec(
      s.kind,
      if s.kind == TaskManagerPodKill || s.kind == UnsetScenario then DefaultSelection(s.selection) else s.selection,
      match s.network case None => None case Some(n) => Some(DefaultNetwork(n)),
      match s.exhaustion
      case None => None
      case Some(x) => if s.kind == ResourceExhaustion then Some(DefaultExhaustion(x)) else Some(x))
  }

  function DefaultObserve(o: ObserveSpec): ObserveSpec {
    ObserveSpec(
      o.enabled || (o.timeout == 0 && o.pollInterval == 0),
      if o.timeout == 0 then 10 * MINUTE else o.timeout,
      if o.pollInterval == 0 then 5 * SECOND else o.pollInterval,
      if o.rest.requireStableCheckpoint
      then o.rest.(stableWindow := if o.rest.stableWindow == 0 then 60 else o.rest.stableWindow,
                   waitTimeout := Some(o.rest.waitTimeout.GetOr(5 * MINUTE)))
      else o.rest)
  }

  function DefaultSafety(s: SafetySpec): SafetySpec {
    s.(maxConcurrent := if s.maxConcurrent == 0 then 1 else s.maxConcurrent,
       minRemaining := Some(s.minRemaining.GetOr(1)),
       maxNetworkDuration := Some(s.maxNetworkDuration.GetOr(5 * MINUTE)),
       maxExhaustionDuration := Some(s.maxExhaustionDuration.GetOr(5 * MINUTE)))
  }

  /** The specification every reconcile works with; it is computed on each read and never stored. */
  function Defaulted(s: RunSpec): RunSpec {
    s.(scenario := DefaultScenario(s.scenario), observe := DefaultObserve(s.observe), safety := DefaultSafety(s.safety))
  }

  /** Defaulting twice is defaulting once, so it does not matter how often a spec passes through it. */
  lemma DefaultsAreStable(s: RunSpec)
    ensures Defaulted(Defaulted(s)) == Defaulted(s)
  {
    var d := Defaulted(s);
    assert DefaultScenario(d.scenario) == d.scenario;
    assert DefaultObserve(d.observe) == d.observe;
    assert DefaultSafety(d.safety) == d.safety;
  }

  /******* Validation *******/

  predicate IsDigit(c: char) { '0' <= c <= '9' }

  predicate IsHexDigit(c: char) { IsDigit(c) || 'a' <= c <= 'f' || 'A' <= c <= 'F' }

  /** Every text Go's net.ParseCIDR accepts has this shape: hexadecimal digits, dots and colons around a slash. */
  predicate LooksLikeCidr(s: string) {
    '/' in s && forall i :: 0 <= i < |s| ==> IsHexDigit(s[i]) || s[i] == '.' || s[i] == ':' || s[i] == '/'
  }

  /** KELVIN SIGN, which Unicode folds to the letter k. */
  const KELVIN: char := '\U{212A}'

  /**
   Case folding as Go's (?i) does it. The letters of a rate are k, m, g, t, b and i; besides its
   capital only k has another character that folds to it.
   */
  function Fold(c: char): char {
    if 'A' <= c <= 'Z' then c - 'A' + 'a' else if c == KELVIN then 'k' else c
  }

  /** A positive decimal number followed by kbit, mbit, gbit or tbit in any case. */
  predicate IsRate(s: string) {
    && |s| >= 5
    && '1' <= s[0] <= '9'
    && (forall i :: 0 < i < |s| - 4 ==> IsDigit(s[i]))
    && Fold(s[|s| - 4]) in "kmgt"
    && Fold(s[|s| - 3]) == 'b' && Fold(s[|s| - 2]) == 'i' && Fold(s[|s| - 1]) == 't'
  }

  predicate ValidTarget(t: TargetSpec) {
    match t.kind
    case FlinkDeployment => t.name != ""
    case VervericaDeployment => t.deploymentId != "" || t.deploymentName != ""
    case PodSelector => t.selectorTerms.GetOr(0) > 0
    case UnsupportedTarget => false
  }

  predicate ValidSelection(s: Selection) {
    match s.mode
    case Random => s.count >= 1
    case UnsetMode => s.count >= 1
    case Explicit => s.podNames != []
    case UnsupportedMode => false
  }

  predicate External(t: NetworkTarget) { t == TMtoCheckpoint || t == TMtoExternal }

  predicate ValidNetwork(kind: ScenarioType, n: NetworkSpec) {
    && n.target != UnsetTarget
    && (kind == NetworkChaos ==>
          && (n.latency.Some? || n.loss.Some? || n.bandwidth != "")
          && (n.jitter.Some? ==> n.latency.Some?)
          && (n.bandwidth != "" ==> n.target == TMtoExternal))
    && (n.bandwidth != "" ==> IsRate(n.bandwidth))
    && (External(n.target) ==>
          && n.endpoint.Some?
          && (kind == NetworkPartition ==> n.endpoint.value.cidr != "")
          && (n.endpoint.value.cidr != "" ==> LooksLikeCidr(n.endpoint.value.cidr)))
  }

  predicate ValidExhaustion(x: ExhaustionSpec) {
    && x.mode != UnsupportedExhaustion
    && (x.mode == Memory && x.memoryPercent != 0 ==> 1 <= x.memoryPercent <= 100)
  }

  predicate ValidScenario(s: ScenarioSpec) {
    match s.kind
    case TaskManagerPodKill => ValidSelection(s.selection)
    case UnsetScenario => ValidSelection(s.selection)
    case NetworkPartition => s.network.Some? && ValidNetwork(s.kind, s.network.value)
    case NetworkChaos => s.network.Some? && ValidNetwork(s.kind, s.network.value)
    case ResourceExhaustion => s.exhaustion.Some? && ValidExhaustion(s.exhaustion.value)
    case UnsupportedScenario => false
  }

  predicate ValidObserve(o: ObserveSpec) {
    && (o.rest.requireStableCheckpoint ==> o.rest.enabled && o.rest.endpoint != "")
    && (o.timeout > 0 && o.pollInterval > 0 ==> o.timeout >= o.pollInterval)
  }

  predicate Valid(s: RunSpec) {
    ValidTarget(s.target) && ValidScenario(s.scenario) && ValidObserve(s.observe)
  }
}
