/** The TaskManagerPodKill driver: choosing pods and deleting them. */
module PodKill {
  import opened Wrappers
  import opened ChaosApi
  import opened Cluster

  /******* What selection means *******/

  function Swap<T>(s: seq<T>, i: nat, j: nat): seq<T> {
    if i < |s| && j < |s| then s[i := s[j]][j := s[i]] else s
  }

  function Shuffled<T>(s: seq<T>, swaps: seq<(nat, nat)>): (r: seq<T>)
    ensures |r| == |s|
    decreases |swaps|
  {
    if swaps == [] then s else Shuffled(Swap(s, swaps[0].0, swaps[0].1), swaps[1..])
  }

  function RandomSelection(pods: seq<string>, count: nat, swaps: seq<(nat, nat)>): seq<string> {
    if count >= |pods| then pods else Shuffled(pods, swaps)[..count]
  }

  /** None is the error for names that are not pods of the target. */
  function Selected(s: Selection, pods: seq<string>, swaps: seq<(nat, nat)>): Option<seq<string>> {
    if s.mode == Explicit then
      if forall p <- s.podNames :: p in pods then Some(s.podNames) else None
    else
      Some(RandomSelection(pods, if s.count < 1 then 1 else s.count, swaps))
  }

  datatype Deletion = Deletion(pods: map<string, Pod>, injected: seq<string>, ok: bool)

  /** Deletes in order and stops at the first error. */
  function Deleted(pods: map<string, Pod>, selected: seq<string>, fault: string -> Fault): Deletion {
    if selected == [] then Deletion(pods, [], true)
    else
      var (pods', ok) := Delete(pods, selected[0], fault(selected[0]));
      if !ok then Deletion(pods', [], false)
      else
        var rest := Deleted(pods', selected[1..], fault);
        rest.(injected := [selected[0]] + rest.injected)
  }

  /******* The driver *******/

  /** Shuffles a copy in place by the swaps the random source asks for. */
  method RandomSelect(pods: seq<string>, count: nat, swaps: seq<(nat, nat)>) returns (result: seq<string>)
    ensures result == RandomSelection(pods, count, swaps)
  {
    if count >= |pods| {
      return pods;
    }
    var shuffled := new string[|pods|](i requires 0 <= i < |pods| => pods[i]);
    assert shuffled[..] == pods;
    var k := 0;
    while k < |swaps|
      invariant k <= |swaps|
      invariant Shuffled(shuffled[..], swaps[k..]) == Shuffled(pods, swaps)
    {
      var (i, j) := swaps[k];
      ghost var before := shuffled[..];
      if i < shuffled.Length && j < shuffled.Length {
        shuffled[i], shuffled[j] := shuffled[j], shuffled[i];
      }
      assert shuffled[..] == Swap(before, i, j);
      assert swaps[k..][1..] == swaps[k + 1..];
      k := k + 1;
    }
    result := shuffled[..count];
  }

  method ExplicitSelect(requested: seq<string>, available: seq<string>) returns (result: Option<seq<string>>)
    ensures result == if forall p <- requested :: p in available then Some(requested) else None
  {
    var avail: set<string> := {};
    for i := 0 to |available|
      invariant avail == set p | p in available[..i]
    {
      avail := avail + {available[i]};
    }
    assert available[..|available|] == available;
    var unknown := [];
    for i := 0 to |requested|
      invariant unknown == [] <==> forall k :: 0 <= k < i ==> requested[k] in available
    {
      if requested[i] !in avail {
        unknown := unknown + [requested[i]];
      }
    }
    result := if unknown == [] then Some(requested) else None;
  }

  method SelectPods(s: Selection, pods: seq<string>, swaps: seq<(nat, nat)>) returns (result: Option<seq<string>>)
    ensures result == Selected(s, pods, swaps)
  {
    if s.mode == Explicit {
      result := ExplicitSelect(s.podNames, pods);
    } else {
      var r := RandomSelect(pods, if s.count < 1 then 1 else s.count, swaps);
      result := Some(r);
    }
  }

  method DeletePods(api: ApiServer, selected: seq<string>, fault: string -> Fault)
    returns (injected: seq<string>, ok: bool)
    modifies api`pods
    ensures Deletion(api.pods, injected, ok) == Deleted(old(api.pods), selected, fault)
  {
    injected, ok := [], true;
    var i := 0;
    while i < |selected|
      invariant i <= |selected| && ok
      invariant var rest := Deleted(api.pods, selected[i..], fault);
                Deleted(old(api.pods), selected, fault) == rest.(injected := injected + rest.injected)
    {
      assert selected[i..][1..] == selected[i + 1..];
      ok := api.DeletePod(selected[i], fault(selected[i]));
      if !ok {
        return;
      }
      injected := injected + [selected[i]];
      i := i + 1;
    }
  }

  /******* What the driver guarantees *******/

  lemma SwapIsAPermutation<T>(s: seq<T>, i: nat, j: nat)
    ensures multiset(Swap(s, i, j)) == multiset(s)
  {
  }

  lemma {:induction false} ShuffleIsAPermutation<T>(s: seq<T>, swaps: seq<(nat, nat)>)
    ensures multiset(Shuffled(s, swaps)) == multiset(s)
    decreases |swaps|
  {
    if swaps != [] {
      SwapIsAPermutation(s, swaps[0].0, swaps[0].1);
      ShuffleIsAPermutation(Swap(s, swaps[0].0, swaps[0].1), swaps[1..]);
    }
  }

  lemma DistinctByMultiset<T>(s: seq<T>)
    ensures NoDuplicates(s) <==> forall x :: multiset(s)[x] <= 1
  {
    if NoDuplicates(s) {
      forall x ensures multiset(s)[x] <= 1 { AtMostOnce(s, x); }
    } else {
      var i, j :| 0 <= i < j < |s| && s[i] == s[j];
      assert s == s[..i] + [s[i]] + s[i + 1..j] + [s[j]] + s[j + 1..];
      assert multiset(s)[s[i]] >= 2;
    }
  }

  lemma {:induction false} AtMostOnce<T>(s: seq<T>, x: T)
    requires NoDuplicates(s)
    ensures multiset(s)[x] <= 1
  {
    if s != [] {
      assert s == [s[0]] + s[1..];
      AtMostOnce(s[1..], x);
    }
  }

  /** Whatever the shuffle does, the choice has exactly the asked size, no repetitions and only target pods. */
  lemma RandomSelectionIsFair(pods: seq<string>, count: nat, swaps: seq<(nat, nat)>)
    requires NoDuplicates(pods)
    ensures var r := RandomSelection(pods, count, swaps);
            && |r| == (if count < |pods| then count else |pods|)
            && NoDuplicates(r)
            && forall p <- r :: p in pods
  {
    var s := Shuffled(pods, swaps);
    ShuffleIsAPermutation(pods, swaps);
    DistinctByMultiset(pods);
    DistinctByMultiset(s);
    forall p | p in s ensures p in pods { assert p in multiset(s); }
  }

  function Elements<T>(s: seq<T>): set<T> { set x | x in s }

  /** The injected list is a prefix of the selection, and only selected pods disappear. */
  lemma {:induction false} DeletesAPrefix(pods: map<string, Pod>, selected: seq<string>, fault: string -> Fault)
    ensures var d := Deleted(pods, selected, fault);
            && d.injected <= selected
            && (d.ok ==> d.injected == selected)
            && ((forall p :: fault(p) == NoFault) ==> d.ok)
            && d.pods.Keys <= pods.Keys
            && pods.Keys - d.pods.Keys <= Elements(selected)
            && (forall p <- d.injected :: p !in d.pods)
            && (forall p <- d.pods :: d.pods[p] == pods[p])
  {
    if selected != [] {
      var (pods', ok) := Delete(pods, selected[0], fault(selected[0]));
      if ok {
        DeletesAPrefix(pods', selected[1..], fault);
        assert selected == [selected[0]] + selected[1..];
        assert Elements(selected) == {selected[0]} + Elements(selected[1..]);
      }
    }
  }

  lemma {:induction false} DistinctElements<T>(s: seq<T>)
    ensures |Elements(s)| <= |s|
    ensures NoDuplicates(s) ==> |Elements(s)| == |s|
  {
    if s == [] {
      assert Elements(s) == {};
    } else {
      DistinctElements(s[1..]);
      assert Elements(s) == {s[0]} + Elements(s[1..]);
    }
  }

  /** However the deletions go, at least all but |selected| of the target's live pods survive. */
  lemma SurvivorsAreCounted(pods: map<string, Pod>, target: seq<string>, selected: seq<string>, fault: string -> Fault)
    requires NoDuplicates(target) && Elements(target) <= pods.Keys && Elements(selected) <= Elements(target)
    ensures |Elements(target) * Deleted(pods, selected, fault).pods.Keys| >= |target| - |Elements(selected)|
    ensures Deleted(pods, selected, fault).ok ==>
              |Elements(target) * Deleted(pods, selected, fault).pods.Keys| == |target| - |Elements(selected)|
  {
    var d := Deleted(pods, selected, fault);
    DeletesAPrefix(pods, selected, fault);
    DistinctElements(target);
    var left, kept := Elements(target) - Elements(selected), Elements(target) * d.pods.Keys;
    assert |left| == |target| - |Elements(selected)| by {
      assert left + Elements(selected) == Elements(target);
    }
    assert left <= kept;
    SubsetIsSmaller(left, kept);
    if d.ok {
      assert left == kept;
    }
  }
}
