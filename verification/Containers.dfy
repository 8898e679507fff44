/**
 The two drivers that work through ephemeral containers, NetworkChaos and ResourceExhaustion.
 They differ in the container they start and in the status list they keep; the loops are the same.
 */
module Containers {
  import opened Wrappers
  import opened ChaosApi
  import opened Cluster
  import opened Drivers
  import opened Ephemeral
  import TC = TrafficControl

  const DEFAULT_DURATION: int := 60 * SECOND

  function ResolveDuration(d: Option<int>): int {
    if d.Some? && d.value > 0 then d.value else DEFAULT_DURATION
  }

  function NetworkDuration(n: Option<NetworkSpec>): int {
    ResolveDuration(match n case Some(x) => x.duration case None => None)
  }

  function ExhaustionDuration(x: Option<ExhaustionSpec>): int {
    ResolveDuration(match x case Some(s) => s.duration case None => None)
  }

  function PodsOf(recs: seq<ContainerRecord>): seq<string> {
    seq(|recs|, i requires 0 <= i < |recs| => recs[i].pod)
  }

  /******* Starting containers *******/

  datatype Starting = Starting(pods: map<string, Pod>, records: seq<ContainerRecord>, ok: bool)

  /** One container per pod from position `i` on, stopping at the first error. */
  function Started(
      prefix: string, run: string, names: seq<string>, i: nat, pods: map<string, Pod>, now: int, e: Env): Starting
    requires i <= |names|
    decreases |names| - i
  {
    if i == |names| then Starting(pods, [], true)
    else if !e.getOk(names[i]) || names[i] !in pods then Starting(pods, [], false)
    else
      var container := ContainerName(prefix, run, i);
      var (pods', ok) := AddContainer(pods, names[i], container, e.updateFault(names[i]));
      if !ok then Starting(pods', [], false)
      else
        var rest := Started(prefix, run, names, i + 1, pods', now, e);
        rest.(records := [ContainerRecord(names[i], container, Some(Stamp(now)), false)] + rest.records)
  }

  function InjectNetworkChaos(
      run: string, network: Option<NetworkSpec>, st: Status, target: ResolvedTarget, r: Resources, now: int, e: Env)
    : InjectStep
  {
    if network.None? then InjectStep(st, r, InjectFailed)
    else if st.networkInjections != [] then InjectStep(st, r, Injected(target.tmPods, PodsOf(st.networkInjections)))
    else if target.tmPods != [] && TC.ScriptPanics(TC.BuildRule(network.value)) then InjectStep(st, r, InjectPanicked)
    else
      var s := Started(TC_PREFIX, run, target.tmPods, 0, r.pods, now, e);
      InjectStep(st.(networkInjections := s.records), r.(pods := s.pods),
                 if s.ok then Injected(target.tmPods, PodsOf(s.records)) else InjectFailed)
  }

  function InjectExhaustion(
      run: string, spec: Option<ExhaustionSpec>, st: Status, target: ResolvedTarget, r: Resources, now: int, e: Env)
    : InjectStep
  {
    if spec.None? then InjectStep(st, r, InjectFailed)
    else if st.exhaustionInjections != [] then
      InjectStep(st, r, Injected(st.selectedPods, PodsOf(st.exhaustionInjections)))
    else
      var names := if st.selectedPods == [] then target.tmPods else st.selectedPods;
      var s := Started(STRESS_PREFIX, run, names, 0, r.pods, now, e);
      InjectStep(st.(exhaustionInjections := s.records), r.(pods := s.pods),
                 if s.ok then Injected(names, PodsOf(s.records)) else InjectFailed)
  }

  /******* Settling records *******/

  /** The first status of that name decides; None when there is none. */
  function StateOf(statuses: seq<ContainerStatus>, name: string): (state: Option<ContainerState>)
    ensures state.None? <==> forall s <- statuses :: s.name != name
    ensures state.Some? ==> exists i :: IsFirst(statuses, name, i) && statuses[i].state == state.value
  {
    if statuses == [] then None
    else if statuses[0].name == name then
      assert IsFirst(statuses, name, 0);
      Some(statuses[0].state)
    else
      var rest := StateOf(statuses[1..], name);
      assert statuses == [statuses[0]] + statuses[1..];
      assert forall i :: IsFirst(statuses[1..], name, i) ==> IsFirst(statuses, name, i + 1);
      rest
  }

  predicate IsFirst(statuses: seq<ContainerStatus>, name: string, i: int) {
    && 0 <= i < |statuses| && statuses[i].name == name
    && forall j :: 0 <= j < i ==> statuses[j].name != name
  }

  /** The three reasons a container counts as gone. */
  predicate Gone(rec: ContainerRecord, pods: map<string, Pod>, duration: int, now: int) {
    || rec.pod !in pods
    || StateOf(pods[rec.pod].statuses, rec.container) == Some(ContainerTerminated)
    || (rec.injectedAt.Some? && now - rec.injectedAt.value >= duration)
  }

  /** Visits the records in order; an unreadable pod stops the walk and leaves the rest as they were. */
  function Settled(
      recs: seq<ContainerRecord>, pods: map<string, Pod>, duration: int, now: int, getOk: string -> bool)
    : (seq<ContainerRecord>, bool)
  {
    if recs == [] then ([], true)
    else if !recs[0].cleanedUp && !getOk(recs[0].pod) then (recs, false)
    else
      var (rest, ok) := Settled(recs[1..], pods, duration, now, getOk);
      ([recs[0].(cleanedUp := recs[0].cleanedUp || Gone(recs[0], pods, duration, now))] + rest, ok)
  }

  /******* The drivers *******/

  /** The call for position `i` is answered and finds a live pod without a container of that name. */
  predicate CanStart(prefix: string, run: string, names: seq<string>, i: nat, pods: map<string, Pod>, e: Env)
    requires i < |names|
  {
    && e.getOk(names[i]) && names[i] in pods
    && ContainerName(prefix, run, i) !in pods[names[i]].containers
    && e.updateFault(names[i]) == NoFault
  }

  /** What a start records comes before what the rest records. */
  lemma StartedStep(
      done: seq<ContainerRecord>, prefix: string, run: string, names: seq<string>, i: nat, pods: map<string, Pod>,
      now: int, e: Env)
    requires i < |names| && CanStart(prefix, run, names, i, pods, e)
    ensures var pods' := AddContainer(pods, names[i], ContainerName(prefix, run, i), NoFault).0;
            var rest, all := Started(prefix, run, names, i + 1, pods', now, e), Started(prefix, run, names, i, pods, now, e);
            var record := ContainerRecord(names[i], ContainerName(prefix, run, i), Some(Stamp(now)), false);
            all.(records := done + all.records) == rest.(records := done + [record] + rest.records)
  {
  }

  method StartContainers(api: ApiServer, prefix: string, run: string, names: seq<string>, now: int, e: Env)
    returns (records: seq<ContainerRecord>, ok: bool)
    modifies api`pods
    ensures Starting(api.pods, records, ok) == Started(prefix, run, names, 0, old(api.pods), now, e)
  {
    records, ok := [], true;
    var i := 0;
    while i < |names|
      invariant i <= |names| && ok
      invariant var rest := Started(prefix, run, names, i, api.pods, now, e);
                Started(prefix, run, names, 0, old(api.pods), now, e) == rest.(records := records + rest.records)
    {
      if !e.getOk(names[i]) || names[i] !in api.pods {
        return records, false;
      }
      var container := ContainerName(prefix, run, i);
      ghost var before := api.pods;
      ok := api.UpdateEphemeralContainers(names[i], container, e.updateFault(names[i]));
      if !ok {
        return;
      }
      StartedStep(records, prefix, run, names, i, before, now, e);
      records := records + [ContainerRecord(names[i], container, Some(Stamp(now)), false)];
      i := i + 1;
    }
  }

  method InjectNetwork(api: ApiServer, run: ChaosRun, target: ResolvedTarget, now: int, e: Env)
    returns (outcome: Outcome)
    modifies api`pods, run`status
    ensures InjectStep(run.status, Resources(api.policies, api.pods), outcome) ==
            InjectNetworkChaos(run.name, run.spec.scenario.network, old(run.status), target,
                               old(Resources(api.policies, api.pods)), now, e)
  {
    if run.spec.scenario.network.None? {
      return InjectFailed;
    }
    if run.status.networkInjections != [] {
      return Injected(target.tmPods, PodsOf(run.status.networkInjections));
    }
    if target.tmPods != [] && TC.ScriptPanics(TC.BuildRule(run.spec.scenario.network.value)) {
      return InjectPanicked;
    }
    var records, ok := StartContainers(api, TC_PREFIX, run.name, target.tmPods, now, e);
    run.status := run.status.(networkInjections := records);
    outcome := if ok then Injected(target.tmPods, PodsOf(records)) else InjectFailed;
  }

  method InjectStress(api: ApiServer, run: ChaosRun, target: ResolvedTarget, now: int, e: Env)
    returns (outcome: Outcome)
    modifies api`pods, run`status
    ensures InjectStep(run.status, Resources(api.policies, api.pods), outcome) ==
            InjectExhaustion(run.name, run.spec.scenario.exhaustion, old(run.status), target,
                             old(Resources(api.policies, api.pods)), now, e)
  {
    if run.spec.scenario.exhaustion.None? {
      return InjectFailed;
    }
    if run.status.exhaustionInjections != [] {
      return Injected(run.status.selectedPods, PodsOf(run.status.exhaustionInjections));
    }
    var names := run.status.selectedPods;
    if names == [] {
      names := target.tmPods;
    }
    var records, ok := StartContainers(api, STRESS_PREFIX, run.name, names, now, e);
    run.status := run.status.(exhaustionInjections := records);
    outcome := if ok then Injected(names, PodsOf(records)) else InjectFailed;
  }

  method FindContainerState(statuses: seq<ContainerStatus>, name: string) returns (state: Option<ContainerState>)
    ensures state == StateOf(statuses, name)
    ensures state.None? <==> forall s <- statuses :: s.name != name
    ensures state.Some? ==> exists i :: IsFirst(statuses, name, i) && statuses[i].state == state.value
  {
    for i := 0 to |statuses|
      invariant StateOf(statuses, name) == StateOf(statuses[i..], name)
    {
      assert statuses[i..][1..] == statuses[i + 1..];
      if statuses[i].name == name {
        return Some(statuses[i].state);
      }
    }
    state := None;
  }

  /** Marks the records in place, as both Cleanup methods do through a pointer into the status list. */
  method SettleInPlace(
      recs: array<ContainerRecord>, pods: map<string, Pod>, duration: int, now: int, getOk: string -> bool)
    returns (ok: bool)
    modifies recs
    ensures (recs[..], ok) == Settled(old(recs[..]), pods, duration, now, getOk)
  {
    ghost var before := recs[..];
    for i := 0 to recs.Length
      invariant recs[i..] == before[i..]
      invariant Settled(before, pods, duration, now, getOk).0
             == recs[..i] + Settled(before[i..], pods, duration, now, getOk).0
      invariant Settled(before, pods, duration, now, getOk).1 == Settled(before[i..], pods, duration, now, getOk).1
    {
      SettledStep(recs[..i], before[i..], pods, duration, now, getOk);
      assert before[i..][1..] == before[i + 1..] && before[i..][0] == recs[i];
      if !recs[i].cleanedUp && !getOk(recs[i].pod) {
        assert recs[..] == recs[..i] + recs[i..];
        return false;
      }
      if !recs[i].cleanedUp {
        var gone := IsGone(recs[i], pods, duration, now);
        if gone {
          recs[i] := recs[i].(cleanedUp := true);
        }
      }
      assert recs[..i + 1] == recs[..i] + [recs[i]];
    }
    assert before[recs.Length..] == [] && recs[..recs.Length] + [] == recs[..];
    ok := true;
  }

  method IsGone(rec: ContainerRecord, pods: map<string, Pod>, duration: int, now: int) returns (gone: bool)
    ensures gone == Gone(rec, pods, duration, now)
  {
    if rec.pod !in pods {
      return true;
    }
    var state := FindContainerState(pods[rec.pod].statuses, rec.container);
    gone := state == Some(ContainerTerminated);
    if !gone && rec.injectedAt.Some? {
      gone := now - rec.injectedAt.value >= duration;
    }
  }

  lemma SettledStep(
      done: seq<ContainerRecord>, todo: seq<ContainerRecord>, pods: map<string, Pod>, duration: int, now: int,
      getOk: string -> bool)
    requires todo != []
    ensures var all, rest := Settled(todo, pods, duration, now, getOk), Settled(todo[1..], pods, duration, now, getOk);
            if !todo[0].cleanedUp && !getOk(todo[0].pod) then all == (todo, false)
            else
              var marked := todo[0].(cleanedUp := todo[0].cleanedUp || Gone(todo[0], pods, duration, now));
              done + all.0 == done + [marked] + rest.0 && all.1 == rest.1
  {
    if todo[0].cleanedUp || getOk(todo[0].pod) {
      var marked := todo[0].(cleanedUp := todo[0].cleanedUp || Gone(todo[0], pods, duration, now));
      var rest := Settled(todo[1..], pods, duration, now, getOk);
      assert Settled(todo, pods, duration, now, getOk) == ([marked] + rest.0, rest.1);
      assert done + ([marked] + rest.0) == done + [marked] + rest.0;
    }
  }

  method Settle(recs: seq<ContainerRecord>, pods: map<string, Pod>, duration: int, now: int, getOk: string -> bool)
    returns (settled: seq<ContainerRecord>, ok: bool)
    ensures (settled, ok) == Settled(recs, pods, duration, now, getOk)
  {
    var a := new ContainerRecord[|recs|](i requires 0 <= i < |recs| => recs[i]);
    assert a[..] == recs;
    ok := SettleInPlace(a, pods, duration, now, getOk);
    settled := a[..];
  }

  function CleanUpNetworkChaos(network: Option<NetworkSpec>, st: Status, r: Resources, now: int, e: Env): CleanupStep {
    var (recs, ok) := Settled(st.networkInjections, r.pods, NetworkDuration(network), now, e.getOk);
    CleanupStep(st.(networkInjections := recs), r, ok)
  }

  function CleanUpExhaustion(spec: Option<ExhaustionSpec>, st: Status, r: Resources, now: int, e: Env): CleanupStep {
    var (recs, ok) := Settled(st.exhaustionInjections, r.pods, ExhaustionDuration(spec), now, e.getOk);
    CleanupStep(st.(exhaustionInjections := recs), r, ok)
  }

  method CleanupNetwork(api: ApiServer, run: ChaosRun, now: int, e: Env) returns (ok: bool)
    modifies run`status
    ensures CleanupStep(run.status, Resources(api.policies, api.pods), ok) ==
            CleanUpNetworkChaos(run.spec.scenario.network, old(run.status),
                                old(Resources(api.policies, api.pods)), now, e)
  {
    var recs;
    recs, ok := Settle(run.status.networkInjections, api.pods, NetworkDuration(run.spec.scenario.network), now, e.getOk);
    run.status := run.status.(networkInjections := recs);
  }

  method CleanupStress(api: ApiServer, run: ChaosRun, now: int, e: Env) returns (ok: bool)
    modifies run`status
    ensures CleanupStep(run.status, Resources(api.policies, api.pods), ok) ==
            CleanUpExhaustion(run.spec.scenario.exhaustion, old(run.status),
                              old(Resources(api.policies, api.pods)), now, e)
  {
    var recs;
    recs, ok := Settle(run.status.exhaustionInjections, api.pods, ExhaustionDuration(run.spec.scenario.exhaustion),
                       now, e.getOk);
    run.status := run.status.(exhaustionInjections := recs);
  }

  /******* What the drivers guarantee *******/

  /** `b` is `a` with some more records marked, each of them for a container that is gone. */
  predicate SettlesSoundly(
      a: seq<ContainerRecord>, b: seq<ContainerRecord>, pods: map<string, Pod>, duration: int, now: int)
  {
    && |a| == |b|
    && forall i :: 0 <= i < |a| ==>
         && b[i] == a[i].(cleanedUp := b[i].cleanedUp)
         && (a[i].cleanedUp ==> b[i].cleanedUp)
         && (b[i].cleanedUp && !a[i].cleanedUp ==> Gone(a[i], pods, duration, now))
  }

  lemma {:induction false} SettlingIsSound(
      recs: seq<ContainerRecord>, pods: map<string, Pod>, duration: int, now: int, getOk: string -> bool)
    ensures var (recs', ok) := Settled(recs, pods, duration, now, getOk);
            && SettlesSoundly(recs, recs', pods, duration, now)
            && ((forall p :: getOk(p)) ==> ok)
            && (ok ==> forall i :: 0 <= i < |recs| ==>
                         (recs'[i].cleanedUp <==> recs[i].cleanedUp || Gone(recs[i], pods, duration, now)))
  {
    if recs != [] && (recs[0].cleanedUp || getOk(recs[0].pod)) {
      SettlingIsSound(recs[1..], pods, duration, now, getOk);
      assert forall i :: 0 < i < |recs| ==> recs[i] == recs[1..][i - 1];
    }
  }

  /** The walk ends without an error exactly when it can read every pod it has to look at. */
  lemma {:induction false} SettlesWithoutErrorIff(
      recs: seq<ContainerRecord>, pods: map<string, Pod>, duration: int, now: int, getOk: string -> bool)
    ensures Settled(recs, pods, duration, now, getOk).1 <==>
            forall i :: 0 <= i < |recs| ==> recs[i].cleanedUp || getOk(recs[i].pod)
  {
    if recs != [] {
      SettlesWithoutErrorIff(recs[1..], pods, duration, now, getOk);
      assert forall i :: 0 < i < |recs| ==> recs[i] == recs[1..][i - 1];
    }
  }

  /** Starting only adds containers, and the records name pods in order, one distinct container per pod. */
  lemma {:induction false} StartingOnlyAdds(
      prefix: string, run: string, names: seq<string>, i: nat, pods: map<string, Pod>, now: int, e: Env)
    requires i <= |names|
    ensures var s := Started(prefix, run, names, i, pods, now, e);
            && s.pods.Keys == pods.Keys
            && |s.records| <= |names| - i
            && (s.ok ==> |s.records| == |names| - i)
            && forall k :: 0 <= k < |s.records| ==>
                 s.records[k] == ContainerRecord(names[i + k], ContainerName(prefix, run, i + k), Some(Stamp(now)), false)
    decreases |names| - i
  {
    if i < |names| && e.getOk(names[i]) && names[i] in pods {
      var (pods', ok) := AddContainer(pods, names[i], ContainerName(prefix, run, i), e.updateFault(names[i]));
      if ok {
        StartingOnlyAdds(prefix, run, names, i + 1, pods', now, e);
      }
    }
  }

  lemma RecordedName(
      prefix: string, run: string, names: seq<string>, pods: map<string, Pod>, now: int, e: Env, k: nat)
    requires k < |Started(prefix, run, names, 0, pods, now, e).records|
    ensures k < |names|
    ensures Started(prefix, run, names, 0, pods, now, e).records[k].container == ContainerName(prefix, run, k)
  {
    StartingOnlyAdds(prefix, run, names, 0, pods, now, e);
    assert Started(prefix, run, names, 0, pods, now, e).records[k].container == ContainerName(prefix, run, 0 + k);
  }

  /** The records of one injection never share a container name. */
  lemma ContainersAreDistinct(
      prefix: string, run: string, names: seq<string>, pods: map<string, Pod>, now: int, e: Env, j: nat, k: nat)
    requires prefix == TC_PREFIX || prefix == STRESS_PREFIX
    requires |names| <= MAX_INT
    requires j < k < |Started(prefix, run, names, 0, pods, now, e).records|
    ensures var recs := Started(prefix, run, names, 0, pods, now, e).records; recs[j].container != recs[k].container
  {
    RecordedName(prefix, run, names, pods, now, e, j);
    RecordedName(prefix, run, names, pods, now, e, k);
    ContainerNameIsInjective(prefix, run, j, k);
  }

  /******* When a start succeeds *******/

  /** Starting succeeds exactly when every position can start: no start gets in the way of a later one. */
  lemma {:induction false} StartSucceedsIff(
      prefix: string, run: string, names: seq<string>, i: nat, pods: map<string, Pod>, now: int, e: Env)
    requires i <= |names| && NoDuplicates(names)
    ensures Started(prefix, run, names, i, pods, now, e).ok <==>
            forall k :: i <= k < |names| ==> CanStart(prefix, run, names, k, pods, e)
    decreases |names| - i
  {
    if i < |names| && CanStart(prefix, run, names, i, pods, e) {
      var pods' := AddContainer(pods, names[i], ContainerName(prefix, run, i), NoFault).0;
      StartSucceedsIff(prefix, run, names, i + 1, pods', now, e);
      forall k | i < k < |names|
        ensures CanStart(prefix, run, names, k, pods', e) <==> CanStart(prefix, run, names, k, pods, e)
      {
        assert names[k] != names[i];
      }
    }
  }

  /** A started container stays in its pod through the later starts. */
  lemma {:induction false} StartedIsThere(
      prefix: string, run: string, names: seq<string>, i: nat, pods: map<string, Pod>, now: int, e: Env, k: nat)
    requires i <= k < |names| && k - i < |Started(prefix, run, names, i, pods, now, e).records|
    ensures var s := Started(prefix, run, names, i, pods, now, e);
            names[k] in s.pods && ContainerName(prefix, run, k) in s.pods[names[k]].containers
    decreases |names| - i
  {
    var (pods', ok) := AddContainer(pods, names[i], ContainerName(prefix, run, i), e.updateFault(names[i]));
    StartingKeepsContainers(prefix, run, names, i + 1, pods', now, e);
    if k > i {
      StartedIsThere(prefix, run, names, i + 1, pods', now, e, k);
    } else {
      var before, c := pods'[names[i]].containers, ContainerName(prefix, run, i);
      assert before[|before| - 1] == c;
      assert before <= Started(prefix, run, names, i, pods, now, e).pods[names[i]].containers;
    }
  }

  predicate KeepsContainers(before: map<string, Pod>, after: map<string, Pod>) {
    forall p <- before :: p in after && before[p].containers <= after[p].containers
  }

  lemma {:induction false} StartingKeepsContainers(
      prefix: string, run: string, names: seq<string>, i: nat, pods: map<string, Pod>, now: int, e: Env)
    requires i <= |names|
    ensures KeepsContainers(pods, Started(prefix, run, names, i, pods, now, e).pods)
    decreases |names| - i
  {
    if i < |names| && e.getOk(names[i]) && names[i] in pods {
      var (pods', ok) := AddContainer(pods, names[i], ContainerName(prefix, run, i), e.updateFault(names[i]));
      assert KeepsContainers(pods, pods');
      if ok {
        StartingKeepsContainers(prefix, run, names, i + 1, pods', now, e);
        var after := Started(prefix, run, names, i, pods, now, e).pods;
        assert forall p <- pods :: p in pods' && pods[p].containers <= pods'[p].containers <= after[p].containers;
      }
    }
  }

  /**
   After a start that recorded at least one container, a second start on the same pods fails: by the same
   run, when the record was lost, and by any run whose name has the same first 20 characters.
   */
  lemma SecondStartFails(
      prefix: string, run: string, run': string, names: seq<string>, pods: map<string, Pod>,
      now: int, now': int, e: Env, e': Env)
    requires prefix == TC_PREFIX || prefix == STRESS_PREFIX
    requires NoDuplicates(names) && Truncate(run, 20) == Truncate(run', 20)
    requires Started(prefix, run, names, 0, pods, now, e).records != []
    ensures !Started(prefix, run', names, 0, Started(prefix, run, names, 0, pods, now, e).pods, now', e').ok
  {
    var after := Started(prefix, run, names, 0, pods, now, e).pods;
    StartingOnlyAdds(prefix, run, names, 0, pods, now, e);
    StartedIsThere(prefix, run, names, 0, pods, now, e, 0);
    ContainerNamesCollideIff(prefix, run, run', 0, 0);
    StartSucceedsIff(prefix, run', names, 0, after, now', e');
    assert !CanStart(prefix, run', names, 0, after, e');
  }

  /******* Which started containers are on record *******/

  predicate Has(pods: map<string, Pod>, pod: string, container: string) {
    pod in pods && container in pods[pod].containers
  }

  /** The container is new. */
  predicate Appears(before: map<string, Pod>, after: map<string, Pod>, pod: string, container: string) {
    Has(after, pod, container) && !Has(before, pod, container)
  }

  predicate OnRecord(recs: seq<ContainerRecord>, pod: string, container: string) {
    exists i :: 0 <= i < |recs| && recs[i].pod == pod && recs[i].container == container
  }

  ghost predicate AllOnRecord(before: map<string, Pod>, after: map<string, Pod>, recs: seq<ContainerRecord>) {
    forall pod, container :: Appears(before, after, pod, container) ==> OnRecord(recs, pod, container)
  }

  /** The walk stops at an update that is reported as failed and has taken effect. */
  predicate StopsUnsure(
      prefix: string, run: string, names: seq<string>, i: nat, pods: map<string, Pod>, now: int, e: Env)
    requires i <= |names|
    decreases |names| - i
  {
    && i < |names| && e.getOk(names[i]) && names[i] in pods
    && ContainerName(prefix, run, i) !in pods[names[i]].containers
    && match e.updateFault(names[i])
       case NotApplied => false
       case AppliedButFailed => true
       case NoFault =>
         var pods' := AddContainer(pods, names[i], ContainerName(prefix, run, i), NoFault).0;
         StopsUnsure(prefix, run, names, i + 1, pods', now, e)
  }

  lemma AddedContainerAppears(pods: map<string, Pod>, pod: string, container: string, f: Fault)
    requires pod in pods && container !in pods[pod].containers && f != NotApplied
    ensures var pods' := AddContainer(pods, pod, container, f).0;
            && KeepsContainers(pods, pods')
            && forall p, c :: Appears(pods, pods', p, c) <==> p == pod && c == container
  {
  }

  lemma HasIsKept(before: map<string, Pod>, after: map<string, Pod>, pod: string, container: string)
    requires KeepsContainers(before, after) && Has(before, pod, container)
    ensures Has(after, pod, container)
  {
    var old', new' := before[pod].containers, after[pod].containers;
    var k :| 0 <= k < |old'| && old'[k] == container;
    assert new'[k] == container;
  }

  lemma OnRecordFirst(first: ContainerRecord, rest: seq<ContainerRecord>, pod: string, container: string)
    ensures OnRecord([first] + rest, pod, container)
            <==> (first.pod == pod && first.container == container) || OnRecord(rest, pod, container)
  {
    var all := [first] + rest;
    assert all[0] == first && forall i :: 0 <= i < |rest| ==> all[i + 1] == rest[i];
  }

  /** Every container a start leaves behind is on record, except one whose update only seemed to fail. */
  lemma {:induction false} StartedAreOnRecordIff(
      prefix: string, run: string, names: seq<string>, i: nat, pods: map<string, Pod>, now: int, e: Env)
    requires i <= |names|
    ensures var s := Started(prefix, run, names, i, pods, now, e);
            AllOnRecord(pods, s.pods, s.records) <==> !StopsUnsure(prefix, run, names, i, pods, now, e)
    decreases |names| - i
  {
    if i < |names| && e.getOk(names[i]) && names[i] in pods
       && ContainerName(prefix, run, i) !in pods[names[i]].containers && e.updateFault(names[i]) != NotApplied {
      var container := ContainerName(prefix, run, i);
      var pods' := AddContainer(pods, names[i], container, e.updateFault(names[i])).0;
      AddedContainerAppears(pods, names[i], container, e.updateFault(names[i]));
      if e.updateFault(names[i]) == NoFault {
        StartedAreOnRecordIff(prefix, run, names, i + 1, pods', now, e);
        StartingKeepsContainers(prefix, run, names, i + 1, pods', now, e);
        RestIsOnRecord(pods, pods', Started(prefix, run, names, i + 1, pods', now, e),
                       ContainerRecord(names[i], container, Some(Stamp(now)), false));
      } else {
        assert Appears(pods, pods', names[i], container);
      }
    }
  }

  /** One started and recorded container does not change whether the others are on record. */
  lemma RestIsOnRecord(pods: map<string, Pod>, pods': map<string, Pod>, rest: Starting, first: ContainerRecord)
    requires KeepsContainers(pods, pods') && KeepsContainers(pods', rest.pods)
    requires forall p, c :: Appears(pods, pods', p, c) <==> p == first.pod && c == first.container
    ensures AllOnRecord(pods, rest.pods, [first] + rest.records) <==> AllOnRecord(pods', rest.pods, rest.records)
  {
    forall p, c
      ensures Appears(pods, rest.pods, p, c)
              <==> (p == first.pod && c == first.container) || Appears(pods', rest.pods, p, c)
      ensures OnRecord([first] + rest.records, p, c)
              <==> (p == first.pod && c == first.container) || OnRecord(rest.records, p, c)
    {
      OnRecordFirst(first, rest.records, p, c);
      if Has(pods, p, c) { HasIsKept(pods, pods', p, c); }
      if Has(pods', p, c) { HasIsKept(pods', rest.pods, p, c); }
      assert Appears(pods, pods', p, c) <==> p == first.pod && c == first.container;
    }
    assert Has(pods', first.pod, first.container) by {
      assert Appears(pods, pods', first.pod, first.container);
    }
  }
}
