/** Recovery signals: the Kubernetes observer, the Flink REST observer and their composition. */
module Observers {
  import opened Wrappers
  import opened ChaosApi
  import opened Cluster

  datatype Signals = Signals(
    replaced: bool, ready: bool, countBefore: nat, countAfter: nat, jobState: string, checkpoint: string)

  const NO_SIGNALS: Signals := Signals(false, false, 0, 0, "", "")

  /** What a composite of no children reports. */
  const UNIT: Signals := Signals(false, true, 0, 0, "", "")

  datatype ObserveError = PodUnreadable(pod: string) | JobsUnavailable | TaskManagersUnavailable

  type Poll = Result<Signals, ObserveError>

  /******* Kubernetes *******/

  predicate PodReady(p: Pod) {
    p.running && forall i :: 0 <= i < |p.ready| ==> p.ready[i]
  }

  /** Reads the pods in order: the first that cannot be read is an error, the first that is not ready settles it. */
  function AllPodsReady(names: seq<string>, pods: map<string, Pod>, getOk: string -> bool)
    : Result<bool, ObserveError>
  {
    if names == [] then Ok(true)
    else if !getOk(names[0]) || names[0] !in pods then Err(PodUnreadable(names[0]))
    else if !PodReady(pods[names[0]]) then Ok(false)
    else AllPodsReady(names[1..], pods, getOk)
  }

  predicate Disjoint(a: seq<string>, b: seq<string>) {
    forall x <- a :: x !in b
  }

  function KubernetesPoll(
      injected: seq<string>, target: Option<ResolvedTarget>, pods: map<string, Pod>, getOk: string -> bool): Poll
  {
    if target.None? || target.value.tmPods == [] then Ok(NO_SIGNALS)
    else
      var live := target.value.tmPods;
      var base := Signals(false, false, |live| + |injected|, |live|, "", "");
      if !Disjoint(injected, live) then Ok(base)
      else
        match AllPodsReady(live, pods, getOk)
        case Err(error) => Err(error)
        case Ok(ready) => Ok(base.(replaced := true, ready := ready))
  }

  method ReadPods(names: seq<string>, pods: map<string, Pod>, getOk: string -> bool)
    returns (ready: Result<bool, ObserveError>)
    ensures ready == AllPodsReady(names, pods, getOk)
  {
    for i := 0 to |names|
      invariant AllPodsReady(names, pods, getOk) == AllPodsReady(names[i..], pods, getOk)
    {
      assert names[i..][1..] == names[i + 1..];
      if !getOk(names[i]) || names[i] !in pods {
        return Err(PodUnreadable(names[i]));
      }
      var pod := pods[names[i]];
      if !pod.running {
        return Ok(false);
      }
      for k := 0 to |pod.ready|
        invariant forall j :: 0 <= j < k ==> pod.ready[j]
      {
        if !pod.ready[k] {
          return Ok(false);
        }
      }
    }
    ready := Ok(true);
  }

  /**
   The count comparison of the source, live >= (live + injected) - injected, always holds, so only
   the names decide whether a replacement is seen.
   */
  method ObserveKubernetes(
      injected: seq<string>, target: Option<ResolvedTarget>, pods: map<string, Pod>, getOk: string -> bool)
    returns (poll: Poll)
    ensures poll == KubernetesPoll(injected, target, pods, getOk)
  {
    if target.None? || target.value.tmPods == [] {
      return Ok(NO_SIGNALS);
    }
    var live := target.value.tmPods;
    var countBefore, countAfter := |live| + |injected|, |live|;
    var liveSet: set<string> := {};
    for i := 0 to |live|
      invariant liveSet == set p | p in live[..i]
    {
      liveSet := liveSet + {live[i]};
    }
    assert live[..|live|] == live;
    var replaced := false;
    if injected == [] {
      replaced := true;
    } else {
      var stillPresent := false;
      for i := 0 to |injected|
        invariant !stillPresent
        invariant forall j :: 0 <= j < i ==> injected[j] !in live
      {
        if injected[i] in liveSet {
          stillPresent := true;
          break;
        }
      }
      replaced := !stillPresent && countAfter >= countBefore - |injected|;
    }
    assert replaced <==> Disjoint(injected, live);
    var ready := false;
    if replaced {
      var all := ReadPods(live, pods, getOk);
      if all.Err? {
        return Err(all.error);
      }
      ready := all.value;
    }
    poll := Ok(Signals(replaced, ready, countBefore, countAfter, "", ""));
  }

  /******* Flink REST *******/

  /** RUNNING when some job is, otherwise the state of the first job, otherwise nothing. */
  function JobState(jobs: seq<string>): string {
    if "RUNNING" in jobs then "RUNNING" else if jobs == [] then "" else jobs[0]
  }

  predicate RestEnabled(rest: FlinkRest) {
    rest.enabled && rest.endpoint != ""
  }

  function RestPoll(
      rest: FlinkRest, observation: Option<Observation>, jobs: Option<seq<string>>, taskManagers: Option<nat>): Poll
  {
    if !RestEnabled(rest) then Ok(UNIT)
    else if jobs.None? then Err(JobsUnavailable)
    else if taskManagers.None? then Err(TaskManagersUnavailable)
    else
      var baseline := match observation case Some(o) => o.countBefore case None => 0;
      var state := JobState(jobs.value);
      Ok(Signals(taskManagers.value > 0, state == "RUNNING" && taskManagers.value >= baseline,
                   0, taskManagers.value, state, ""))
  }

  method ObserveRest(
      rest: FlinkRest, observation: Option<Observation>, jobs: Option<seq<string>>, taskManagers: Option<nat>)
    returns (poll: Poll)
    ensures poll == RestPoll(rest, observation, jobs, taskManagers)
  {
    if !rest.enabled || rest.endpoint == "" {
      return Ok(UNIT);
    }
    if jobs.None? {
      return Err(JobsUnavailable);
    }
    var state := "";
    for i := 0 to |jobs.value|
      invariant state == ""
      invariant forall j :: 0 <= j < i ==> jobs.value[j] != "RUNNING"
    {
      if jobs.value[i] == "RUNNING" {
        state := jobs.value[i];
        break;
      }
    }
    if state == "" && |jobs.value| > 0 {
      state := jobs.value[0];
    }
    if taskManagers.None? {
      return Err(TaskManagersUnavailable);
    }
    var baseline := 0;
    if observation.Some? {
      baseline := observation.value.countBefore;
    }
    poll := Ok(Signals(taskManagers.value > 0, state == "RUNNING" && taskManagers.value >= baseline,
                         0, taskManagers.value, state, ""));
  }

  /******* Composition *******/

  function LastCount(a: nat, b: nat): nat { if b > 0 then b else a }

  function LastText(a: string, b: string): string { if b != "" then b else a }

  function Merge(a: Signals, b: Signals): Signals {
    Signals(a.replaced || b.replaced, a.ready && b.ready, LastCount(a.countBefore, b.countBefore),
            LastCount(a.countAfter, b.countAfter), LastText(a.jobState, b.jobState),
            LastText(a.checkpoint, b.checkpoint))
  }

  /** The earlier error decides. */
  function MergePolls(a: Poll, b: Poll): Poll {
    if a.Err? then a else if b.Err? then b else Ok(Merge(a.value, b.value))
  }

  function MergeAll(children: seq<Poll>): Poll {
    if children == [] then Ok(UNIT) else MergePolls(children[0], MergeAll(children[1..]))
  }

  lemma MergeIsAssociative(a: Signals, b: Signals, c: Signals)
    ensures Merge(Merge(a, b), c) == Merge(a, Merge(b, c))
  {
  }

  lemma UnitIsNeutral(a: Signals)
    ensures Merge(UNIT, a) == a && Merge(a, UNIT) == a
  {
  }

  /** Observing A and then B is merging what A and B observe: the composite is a monoid homomorphism. */
  lemma {:induction false} CompositeOfConcatenation(a: seq<Poll>, b: seq<Poll>)
    ensures MergeAll(a + b) == MergePolls(MergeAll(a), MergeAll(b))
  {
    if a == [] {
      assert a + b == b;
      if MergeAll(b).Ok? { UnitIsNeutral(MergeAll(b).value); }
    } else {
      assert (a + b)[1..] == a[1..] + b;
      CompositeOfConcatenation(a[1..], b);
      if a[0].Ok? && MergeAll(a[1..]).Ok? && MergeAll(b).Ok? {
        MergeIsAssociative(a[0].value, MergeAll(a[1..]).value, MergeAll(b).value);
      }
    }
  }

  /** What the merged flags mean. */
  lemma {:induction false} CompositeFlags(children: seq<Poll>)
    ensures MergeAll(children).Ok? <==> forall c <- children :: c.Ok?
    ensures MergeAll(children).Ok? ==>
              && (MergeAll(children).value.ready <==> forall c <- children :: c.value.ready)
              && (MergeAll(children).value.replaced <==> exists c <- children :: c.value.replaced)
  {
    if children != [] {
      CompositeFlags(children[1..]);
      assert children == [children[0]] + children[1..];
    }
  }

  /** The first child that fails. */
  predicate FailsFirst(children: seq<Poll>, i: int) {
    0 <= i < |children| && children[i].Err? && forall j :: 0 <= j < i ==> children[j].Ok?
  }

  /** The composite fails iff a child does, with the error of the first one, and what comes after it is irrelevant. */
  lemma {:induction false} FirstErrorDecides(children: seq<Poll>)
    ensures MergeAll(children).Err? <==> exists i :: FailsFirst(children, i)
    ensures forall i :: FailsFirst(children, i) ==> MergeAll(children) == children[i]
  {
    if children != [] {
      var rest := children[1..];
      FirstErrorDecides(rest);
      if children[0].Err? {
        assert FailsFirst(children, 0);
      } else {
        forall i | FailsFirst(children, i) ensures MergeAll(children) == children[i] {
          assert rest[i - 1] == children[i];
          assert forall j :: 0 <= j < i - 1 ==> rest[j] == children[j + 1];
          assert FailsFirst(rest, i - 1);
        }
        if i :| FailsFirst(rest, i) {
          assert forall j :: 0 < j < i + 1 ==> children[j] == rest[j - 1];
          assert FailsFirst(children, i + 1);
        }
      }
    }
  }

  /** `r` is the last of the values that is set, or unset when none is. */
  predicate LastSet<T(==)>(values: seq<T>, unset: T, r: T) {
    if r == unset then forall i :: 0 <= i < |values| ==> values[i] == unset
    else exists i :: 0 <= i < |values| && IsLastSet(values, unset, i) && values[i] == r
  }

  predicate IsLastSet<T(==)>(values: seq<T>, unset: T, i: nat)
    requires i < |values|
  {
    values[i] != unset && forall j :: i < j < |values| ==> values[j] == unset
  }

  lemma LastSetOfMore<T>(x: T, values: seq<T>, unset: T, r: T)
    requires LastSet(values, unset, r)
    ensures LastSet([x] + values, unset, if r != unset then r else x)
  {
    var all := [x] + values;
    if r != unset {
      var i :| 0 <= i < |values| && IsLastSet(values, unset, i) && values[i] == r;
      assert all[i + 1] == values[i] && IsLastSet(all, unset, i + 1);
    } else if x != unset {
      assert all[0] == x && IsLastSet(all, unset, 0);
    }
  }

  /** One field of the answers of children that all answer. */
  function Field<T>(children: seq<Poll>, field: Signals -> T): seq<T>
    requires forall c <- children :: c.Ok?
  {
    seq(|children|, i requires 0 <= i < |children| => assert children[i] in children; field(children[i].value))
  }

  lemma FieldOfMore<T>(children: seq<Poll>, field: Signals -> T)
    requires children != [] && forall c <- children :: c.Ok?
    ensures forall c <- children[1..] :: c.Ok?
    ensures Field(children, field) == [field(children[0].value)] + Field(children[1..], field)
  {
  }

  function CountBefore(s: Signals): nat { s.countBefore }

  lemma {:induction false} LastCountBefore(children: seq<Poll>)
    requires forall c <- children :: c.Ok?
    ensures MergeAll(children).Ok?
    ensures LastSet(Field(children, CountBefore), 0, MergeAll(children).value.countBefore)
  {
    if children != [] {
      FieldOfMore(children, CountBefore);
      LastCountBefore(children[1..]);
      LastSetOfMore(children[0].value.countBefore, Field(children[1..], CountBefore), 0, MergeAll(children[1..]).value.countBefore);
    }
  }

  function CountAfter(s: Signals): nat { s.countAfter }

  lemma {:induction false} LastCountAfter(children: seq<Poll>)
    requires forall c <- children :: c.Ok?
    ensures MergeAll(children).Ok?
    ensures LastSet(Field(children, CountAfter), 0, MergeAll(children).value.countAfter)
  {
    if children != [] {
      FieldOfMore(children, CountAfter);
      LastCountAfter(children[1..]);
      LastSetOfMore(children[0].value.countAfter, Field(children[1..], CountAfter), 0, MergeAll(children[1..]).value.countAfter);
    }
  }

  function StateOfJob(s: Signals): string { s.jobState }

  lemma {:induction false} LastJobState(children: seq<Poll>)
    requires forall c <- children :: c.Ok?
    ensures MergeAll(children).Ok?
    ensures LastSet(Field(children, StateOfJob), "", MergeAll(children).value.jobState)
  {
    if children != [] {
      FieldOfMore(children, StateOfJob);
      LastJobState(children[1..]);
      LastSetOfMore(children[0].value.jobState, Field(children[1..], StateOfJob), "", MergeAll(children[1..]).value.jobState);
    }
  }

  function CheckpointOf(s: Signals): string { s.checkpoint }

  lemma {:induction false} LastCheckpoint(children: seq<Poll>)
    requires forall c <- children :: c.Ok?
    ensures MergeAll(children).Ok?
    ensures LastSet(Field(children, CheckpointOf), "", MergeAll(children).value.checkpoint)
  {
    if children != [] {
      FieldOfMore(children, CheckpointOf);
      LastCheckpoint(children[1..]);
      LastSetOfMore(children[0].value.checkpoint, Field(children[1..], CheckpointOf), "", MergeAll(children[1..]).value.checkpoint);
    }
  }

  /** Counts and states are those of the last child that sets them. */
  lemma LastChildDecides(children: seq<Poll>)
    requires forall c <- children :: c.Ok?
    ensures MergeAll(children).Ok?
    ensures var m := MergeAll(children).value;
            && LastSet(Field(children, CountBefore), 0, m.countBefore)
            && LastSet(Field(children, CountAfter), 0, m.countAfter)
            && LastSet(Field(children, StateOfJob), "", m.jobState)
            && LastSet(Field(children, CheckpointOf), "", m.checkpoint)
  {
    LastCountBefore(children);
    LastCountAfter(children);
    LastJobState(children);
    LastCheckpoint(children);
  }

  /** The fold of the source: one pass that updates `merged` field by field and stops at the first error. */
  method ObserveComposite(children: seq<Poll>) returns (poll: Poll)
    ensures poll == MergeAll(children)
    ensures forall i :: FailsFirst(children, i) ==> poll == children[i]
  {
    var replaced, ready, jobState, checkpoint := false, true, "", "";
    var countBefore: nat, countAfter: nat := 0, 0;
    for i := 0 to |children|
      invariant MergeAll(children[..i]) ==
                Ok(Signals(replaced, ready, countBefore, countAfter, jobState, checkpoint))
    {
      CompositeOfConcatenation(children[..i], [children[i]]);
      assert children[..i + 1] == children[..i] + [children[i]];
      if children[i].Err? {
        CompositeFlags(children[..i]);
        assert forall j :: 0 <= j < i ==> children[..i][j] == children[j];
        assert FailsFirst(children, i);
        FirstErrorDecides(children);
        return children[i];
      }
      var r := children[i].value;
      UnitIsNeutral(r);
      assert MergeAll([children[i]]) == Ok(r);
      if !r.ready { ready := false; }
      if r.replaced { replaced := true; }
      if r.countBefore > 0 { countBefore := r.countBefore; }
      if r.countAfter > 0 { countAfter := r.countAfter; }
      if r.jobState != "" { jobState := r.jobState; }
      if r.checkpoint != "" { checkpoint := r.checkpoint; }
    }
    assert children[..|children|] == children;
    CompositeFlags(children);
    poll := Ok(Signals(replaced, ready, countBefore, countAfter, jobState, checkpoint));
  }

  /******* The observer the operator is wired with *******/

  function Observed(
      spec: ObserveSpec, injected: seq<string>, observation: Option<Observation>, target: Option<ResolvedTarget>,
      pods: map<string, Pod>, e: Env): Poll
  {
    MergeAll([KubernetesPoll(injected, target, pods, e.getOk),
              RestPoll(spec.rest, observation, e.jobs, e.taskManagers)])
  }

  method Observe(
      spec: ObserveSpec, injected: seq<string>, observation: Option<Observation>, target: Option<ResolvedTarget>,
      pods: map<string, Pod>, e: Env)
    returns (poll: Poll)
    ensures poll == Observed(spec, injected, observation, target, pods, e)
  {
    var k := ObserveKubernetes(injected, target, pods, e.getOk);
    if k.Err? {
      return k;
    }
    var r := ObserveRest(spec.rest, observation, e.jobs, e.taskManagers);
    poll := ObserveComposite([k, r]);
  }

  /** The world a poll must have seen to call every replacement ready. */
  predicate Recovered(
      spec: ObserveSpec, injected: seq<string>, observation: Option<Observation>, target: Option<ResolvedTarget>,
      pods: map<string, Pod>, e: Env)
  {
    && target.Some? && target.value.tmPods != []
    && (forall p <- injected :: p !in target.value.tmPods)
    && (forall p <- target.value.tmPods ::
          p in pods && pods[p].running && forall i :: 0 <= i < |pods[p].ready| ==> pods[p].ready[i])
    && (spec.rest.enabled && spec.rest.endpoint != "" ==>
          && e.jobs.Some? && "RUNNING" in e.jobs.value
          && e.taskManagers.Some?
          && e.taskManagers.value >= (match observation case Some(o) => o.countBefore case None => 0))
  }

  lemma {:induction false} ReadyPodsAreReady(names: seq<string>, pods: map<string, Pod>, getOk: string -> bool)
    ensures AllPodsReady(names, pods, getOk) == Ok(true) <==>
            forall p <- names :: getOk(p) && p in pods && PodReady(pods[p])
  {
    if names != [] {
      ReadyPodsAreReady(names[1..], pods, getOk);
      assert names == [names[0]] + names[1..];
    }
  }

  /** A ready poll is exactly a recovered world whose pods could all be read. */
  lemma ReadyIffRecovered(
      spec: ObserveSpec, injected: seq<string>, observation: Option<Observation>, target: Option<ResolvedTarget>,
      pods: map<string, Pod>, e: Env)
    ensures var poll := Observed(spec, injected, observation, target, pods, e);
            poll.Ok? && poll.value.ready <==>
            Recovered(spec, injected, observation, target, pods, e)
            && forall p <- target.value.tmPods :: e.getOk(p)
  {
    var k := KubernetesPoll(injected, target, pods, e.getOk);
    var r := RestPoll(spec.rest, observation, e.jobs, e.taskManagers);
    CompositeFlags([k, r]);
    assert [k, r][0] == k && [k, r][1] == r;
    if target.Some? {
      ReadyPodsAreReady(target.value.tmPods, pods, e.getOk);
    }
    if e.jobs.Some? && e.jobs.value != [] { assert e.jobs.value[0] in e.jobs.value; }
  }

  /** A pod at which the walk over the live pods gives up: all before it are ready, and it cannot be read. */
  predicate BlocksAt(names: seq<string>, pods: map<string, Pod>, getOk: string -> bool, i: int) {
    && 0 <= i < |names| && (!getOk(names[i]) || names[i] !in pods)
    && forall j :: 0 <= j < i ==> getOk(names[j]) && names[j] in pods && PodReady(pods[names[j]])
  }

  lemma {:induction false} UnreadableIff(names: seq<string>, pods: map<string, Pod>, getOk: string -> bool)
    ensures AllPodsReady(names, pods, getOk).Err? <==> exists i :: BlocksAt(names, pods, getOk, i)
    ensures forall i :: BlocksAt(names, pods, getOk, i) ==> AllPodsReady(names, pods, getOk) == Err(PodUnreadable(names[i]))
  {
    if names != [] {
      var rest := names[1..];
      UnreadableIff(rest, pods, getOk);
      if !getOk(names[0]) || names[0] !in pods {
        assert BlocksAt(names, pods, getOk, 0);
      } else if PodReady(pods[names[0]]) {
        forall i | BlocksAt(names, pods, getOk, i) ensures BlocksAt(rest, pods, getOk, i - 1) {
          assert forall j :: 0 <= j < i - 1 ==> rest[j] == names[j + 1];
        }
        if i :| BlocksAt(rest, pods, getOk, i) {
          assert forall j :: 0 < j < i + 1 ==> names[j] == rest[j - 1];
          assert BlocksAt(names, pods, getOk, i + 1);
        }
      }
    }
  }

  /** The replacements are seen: live pods, none of them an injected one. */
  predicate Replaced(injected: seq<string>, target: Option<ResolvedTarget>) {
    target.Some? && target.value.tmPods != [] && forall p <- injected :: p !in target.value.tmPods
  }

  lemma TwoChildren(k: Poll, r: Poll)
    ensures MergeAll([k, r]) == MergePolls(k, r)
  {
    assert [k, r][1..] == [r] && [r][1..] == [];
    assert MergeAll([r]) == r by {
      if r.Ok? { UnitIsNeutral(r.value); }
    }
  }

  /** What the wired observer reports when it answers, read off the world. */
  lemma ObservedSignals(
      spec: ObserveSpec, injected: seq<string>, observation: Option<Observation>, target: Option<ResolvedTarget>,
      pods: map<string, Pod>, e: Env)
    requires Observed(spec, injected, observation, target, pods, e).Ok?
    ensures var s := Observed(spec, injected, observation, target, pods, e).value;
            var live := if target.Some? then target.value.tmPods else [];
            var rest := spec.rest.enabled && spec.rest.endpoint != "";
            && (rest ==> e.jobs.Some? && e.taskManagers.Some?)
            && (s.replaced <==> Replaced(injected, target) || (rest && e.taskManagers.value > 0))
            && s.countBefore == (if live == [] then 0 else |live| + |injected|)
            && s.countAfter == (if rest && e.taskManagers.value > 0 then e.taskManagers.value else |live|)
            && (rest && "RUNNING" in e.jobs.value ==> s.jobState == "RUNNING")
            && (rest && "RUNNING" !in e.jobs.value && e.jobs.value != [] ==> s.jobState == e.jobs.value[0])
            && (!rest || e.jobs.value == [] ==> s.jobState == "")
  {
    var k := KubernetesPoll(injected, target, pods, e.getOk);
    var r := RestPoll(spec.rest, observation, e.jobs, e.taskManagers);
    TwoChildren(k, r);
    if RestEnabled(spec.rest) && "RUNNING" !in e.jobs.value && e.jobs.value != [] {
      assert JobState(e.jobs.value) == e.jobs.value[0];
    }
  }

  /** When it does not: a live pod cannot be read, or REST is on and one of its two requests fails, in this order. */
  lemma ObserverFailsIff(
      spec: ObserveSpec, injected: seq<string>, observation: Option<Observation>, target: Option<ResolvedTarget>,
      pods: map<string, Pod>, e: Env)
    ensures var poll := Observed(spec, injected, observation, target, pods, e);
            var rest := spec.rest.enabled && spec.rest.endpoint != "";
            var unreadable := Replaced(injected, target)
                              && exists i :: BlocksAt(target.value.tmPods, pods, e.getOk, i);
            && (poll.Err? <==> unreadable || (rest && (e.jobs.None? || e.taskManagers.None?)))
            && (poll.Err? && !unreadable ==>
                  poll.error == if e.jobs.None? then JobsUnavailable else TaskManagersUnavailable)
  {
    var k := KubernetesPoll(injected, target, pods, e.getOk);
    var r := RestPoll(spec.rest, observation, e.jobs, e.taskManagers);
    TwoChildren(k, r);
    if target.Some? {
      UnreadableIff(target.value.tmPods, pods, e.getOk);
    }
  }
}
