/** The event stream of the API server: the snapshot diff of one connection and the limit on connections. */
module Sse {
  import opened Wrappers
  import opened ChaosApi

  /******* The snapshot diff *******/

  datatype Item = Item(name: string, phase: Phase, scenario: ScenarioType)

  type Snapshot = map<string, Phase>

  /** Object names are unique in a namespace. */
  predicate UniqueNames(items: seq<Item>) {
    forall i, j :: 0 <= i < j < |items| ==> items[i].name != items[j].name
  }

  /** What a list of runs says, by name. */
  function Listed(items: seq<Item>): Snapshot {
    if items == [] then map[] else Listed(items[..|items| - 1])[items[|items| - 1].name := items[|items| - 1].phase]
  }

  predicate IsNews(snapshot: Snapshot, item: Item) {
    item.name !in snapshot || snapshot[item.name] != item.phase
  }

  /** The runs of the list that are new or have changed phase, in list order. */
  function Changes(snapshot: Snapshot, items: seq<Item>): seq<Item> {
    if items == [] then []
    else
      var last := items[|items| - 1];
      Changes(snapshot, items[..|items| - 1]) + if IsNews(snapshot, last) then [last] else []
  }

  /** A client keeps the last phase it was told for each name. */
  function Told(client: Snapshot, events: seq<Item>): Snapshot {
    if events == [] then client
    else Told(client, events[..|events| - 1])[events[|events| - 1].name := events[|events| - 1].phase]
  }

  /** The list of the latest poll that succeeded. */
  function Latest(polls: seq<Option<seq<Item>>>): seq<Item> {
    if polls == [] then []
    else if polls[|polls| - 1].Some? then polls[|polls| - 1].value
    else Latest(polls[..|polls| - 1])
  }

  predicate UniquePolls(polls: seq<Option<seq<Item>>>) {
    forall i :: 0 <= i < |polls| && polls[i].Some? ==> UniqueNames(polls[i].value)
  }

  /** Everything written by a connection over its polls, while its writes get through. */
  function Written(polls: seq<Option<seq<Item>>>): seq<Item> {
    if polls == [] then []
    else
      var before := polls[..|polls| - 1];
      match polls[|polls| - 1]
      case None => Written(before)
      case Some(items) => Written(before) + Changes(Listed(Latest(before)), items)
  }

  class Stream {
    var snapshot: Snapshot
    /** Every event written so far. */
    var sent: seq<Item>
    /** The polls so far; None is one whose list call failed. */
    ghost var polls: seq<Option<seq<Item>>>

    ghost predicate Valid()
      reads this
    {
      && UniquePolls(polls)
      && snapshot == Listed(Latest(polls))
      && sent == Written(polls)
    }

    constructor ()
      ensures Valid() && snapshot == map[] && sent == [] && polls == []
    {
      snapshot, sent, polls := map[], [], [];
    }

    /**
     One poll. A failed list call changes nothing. A failed write ends the connection; `writeOk` says which
     events get through.
     */
    method Poll(listed: Option<seq<Item>>, writeOk: string -> bool) returns (open: bool)
      requires Valid() && (listed.Some? ==> UniqueNames(listed.value))
      modifies this
      ensures open ==> Valid() && polls == old(polls) + [listed]
      ensures listed.None? ==> open && snapshot == old(snapshot) && sent == old(sent)
      ensures listed.Some? ==>
                var changes := Changes(old(snapshot), listed.value);
                && (open <==> AllWritten(changes, writeOk))
                && (open ==> snapshot == Listed(listed.value) && sent == old(sent) + changes)
                && old(sent) <= sent <= old(sent) + changes
    {
      ghost var now := polls + [listed];
      assert now[..|polls|] == polls;
      if listed.None? {
        polls := now;
        return true;
      }
      open := Emit(listed.value, writeOk);
      if open {
        DropStale(Listed(listed.value).Keys);
        polls := now;
      }
    }

    /** Writes an event for each new or changed run and notes its phase. */
    method Emit(items: seq<Item>, writeOk: string -> bool) returns (open: bool)
      requires UniqueNames(items)
      modifies this`snapshot, this`sent
      ensures open ==> snapshot == old(snapshot) + Listed(items)
      ensures open ==> sent == old(sent) + Changes(old(snapshot), items)
      ensures old(sent) <= sent <= old(sent) + Changes(old(snapshot), items)
      ensures open <==> AllWritten(Changes(old(snapshot), items), writeOk)
    {
      ghost var before, first := snapshot, sent;
      for i := 0 to |items|
        invariant Midway(before, items, i, first, snapshot, sent, writeOk)
      {
        var run := items[i];
        MidwayStep(before, items, i, first, snapshot, sent, writeOk);
        if run.name !in snapshot || snapshot[run.name] != run.phase {
          snapshot := snapshot[run.name := run.phase];
          if !writeOk(run.name) {
            return false;
          }
          sent := sent + [run];
        }
      }
      assert items[..|items|] == items;
      open := true;
    }

    /** Forgets the names that are no longer listed. */
    method DropStale(seen: set<string>)
      modifies this`snapshot
      ensures snapshot == map n | n in old(snapshot) && n in seen :: old(snapshot)[n]
    {
      var left := snapshot.Keys - seen;
      while left != {}
        invariant left !! seen
        invariant snapshot == map n | n in old(snapshot) && (n in seen || n in left) :: old(snapshot)[n]
        decreases left
      {
        var stale :| stale in left;
        snapshot, left := snapshot - {stale}, left - {stale};
      }
    }
  }

  predicate AllWritten(events: seq<Item>, writeOk: string -> bool) {
    forall ev <- events :: writeOk(ev.name)
  }

  /** The state of a poll before item `i`. */
  predicate Midway(
      before: Snapshot, items: seq<Item>, i: nat, first: seq<Item>, snapshot: Snapshot, sent: seq<Item>,
      writeOk: string -> bool)
    requires i <= |items|
  {
    && sent == first + Changes(before, items[..i])
    && snapshot == before + Listed(items[..i])
    && AllWritten(Changes(before, items[..i]), writeOk)
  }

  lemma MidwayStep(
      before: Snapshot, items: seq<Item>, i: nat, first: seq<Item>, snapshot: Snapshot, sent: seq<Item>,
      writeOk: string -> bool)
    requires UniqueNames(items) && i < |items| && Midway(before, items, i, first, snapshot, sent, writeOk)
    ensures var run := items[i];
            if !IsNews(snapshot, run) then Midway(before, items, i + 1, first, snapshot, sent, writeOk)
            else if writeOk(run.name) then
              Midway(before, items, i + 1, first, snapshot[run.name := run.phase], sent + [run], writeOk)
            else
              !AllWritten(Changes(before, items), writeOk) && first <= sent <= first + Changes(before, items)
  {
    var run, told, told' := items[i], Changes(before, items[..i]), Changes(before, items[..i + 1]);
    var listed, listed' := Listed(items[..i]), Listed(items[..i + 1]);
    NextItem(before, items, i);
    assert IsNews(snapshot, run) <==> IsNews(before, run);
    AddListed(before, listed, run);
    if !IsNews(snapshot, run) {
      assert told' == told;
    } else if writeOk(run.name) {
      assert told' == told + [run] && first + told' == sent + [run];
    } else {
      FailedWrite(before, items, i, first, writeOk);
    }
  }

  lemma AddListed(before: Snapshot, listed: Snapshot, run: Item)
    requires run.name !in listed
    ensures (before + listed)[run.name := run.phase] == before + listed[run.name := run.phase]
    ensures !IsNews(before, run) ==> before + listed == before + listed[run.name := run.phase]
  {
  }

  lemma FailedWrite(before: Snapshot, items: seq<Item>, i: nat, sent: seq<Item>, writeOk: string -> bool)
    requires UniqueNames(items) && i < |items| && IsNews(before, items[i]) && !writeOk(items[i].name)
    ensures !AllWritten(Changes(before, items), writeOk)
    ensures sent <= sent + Changes(before, items[..i]) <= sent + Changes(before, items)
  {
    NextItem(before, items, i);
    ChangesGrow(before, items, i);
    ChangesGrow(before, items, i + 1);
    assert items[i] in Changes(before, items[..i + 1]);
  }

  lemma NextItem(before: Snapshot, items: seq<Item>, i: nat)
    requires UniqueNames(items) && i < |items|
    ensures items[i].name !in Listed(items[..i])
    ensures Listed(items[..i + 1]) == Listed(items[..i])[items[i].name := items[i].phase]
    ensures Changes(before, items[..i + 1])
         == Changes(before, items[..i]) + if IsNews(before, items[i]) then [items[i]] else []
  {
    assert items[..i + 1][..i] == items[..i];
    ListedNames(items[..i], items[i].name);
  }

  lemma {:induction false} ListedNames(items: seq<Item>, name: string)
    ensures name in Listed(items) <==> exists i :: 0 <= i < |items| && items[i].name == name
  {
    if items != [] {
      var k := |items| - 1;
      ListedNames(items[..k], name);
      if items[k].name != name {
        assert (exists i :: 0 <= i < |items| && items[i].name == name) ==>
               exists i :: 0 <= i < k && items[..k][i].name == name by {
          if i :| 0 <= i < |items| && items[i].name == name { assert items[..k][i].name == name; }
        }
      }
    }
  }

  lemma {:induction false} ChangesGrow(snapshot: Snapshot, items: seq<Item>, k: nat)
    requires k <= |items|
    ensures Changes(snapshot, items[..k]) <= Changes(snapshot, items)
    decreases |items|
  {
    if k == |items| {
      assert items[..k] == items;
    } else {
      ChangesGrow(snapshot, items[..|items| - 1], k);
      assert items[..|items| - 1][..k] == items[..k];
    }
  }

  lemma {:induction false} ListedPhase(items: seq<Item>, i: nat)
    requires UniqueNames(items) && i < |items|
    ensures items[i].name in Listed(items) && Listed(items)[items[i].name] == items[i].phase
  {
    if i < |items| - 1 {
      ListedPhase(items[..|items| - 1], i);
    }
  }

  /** One event for each new or changed run, none for any other. */
  lemma {:induction false} OneEventPerChange(snapshot: Snapshot, items: seq<Item>)
    requires UniqueNames(items)
    ensures forall item :: item in Changes(snapshot, items) <==> item in items && IsNews(snapshot, item)
    ensures UniqueNames(Changes(snapshot, items))
  {
    if items != [] {
      var init, last := items[..|items| - 1], items[|items| - 1];
      OneEventPerChange(snapshot, init);
      assert items == init + [last];
      forall ev | ev in Changes(snapshot, init) ensures ev.name != last.name { assert ev in init; }
    }
  }

  /** The client knows every name of the list, with its phase. */
  predicate Agrees(client: Snapshot, live: Snapshot) {
    forall n <- live :: n in client && client[n] == live[n]
  }

  /** A client told about the changes of a poll knows every listed phase, if it knew the old snapshot. */
  lemma {:induction false} TellingChangesIsEnough(snapshot: Snapshot, items: seq<Item>, client: Snapshot)
    requires UniqueNames(items)
    requires Agrees(client, snapshot)
    ensures Agrees(Told(client, Changes(snapshot, items)), Listed(items))
    ensures forall n <- snapshot :: n !in Listed(items) ==>
              n in Told(client, Changes(snapshot, items)) && Told(client, Changes(snapshot, items))[n] == snapshot[n]
  {
    if items != [] {
      var init, last := items[..|items| - 1], items[|items| - 1];
      TellingChangesIsEnough(snapshot, init, client);
      ListedNames(init, last.name);
      assert last.name !in Listed(init);
      var c := Changes(snapshot, init);
      if IsNews(snapshot, last) {
        assert Changes(snapshot, items)[..|c|] == c;
      } else {
        assert Changes(snapshot, items) == c;
      }
    }
  }

  /** Being told more is being told first the one and then the other. */
  lemma {:induction false} ToldInTwoParts(client: Snapshot, a: seq<Item>, b: seq<Item>)
    ensures Told(client, a + b) == Told(Told(client, a), b)
  {
    if b == [] {
      assert a + b == a;
    } else {
      ToldInTwoParts(client, a, b[..|b| - 1]);
      assert (a + b)[..|a + b| - 1] == a + b[..|b| - 1];
    }
  }

  /**
   Over any sequence of polls, with runs deleted and their names used again, a client that folds everything
   written to it agrees with the latest list on every live run.
   */
  lemma {:induction false} ClientsSeeTheLatestList(polls: seq<Option<seq<Item>>>)
    requires UniquePolls(polls)
    ensures Agrees(Told(map[], Written(polls)), Listed(Latest(polls)))
  {
    if polls != [] {
      var before := polls[..|polls| - 1];
      ClientsSeeTheLatestList(before);
      if polls[|polls| - 1].Some? {
        var items, snapshot := polls[|polls| - 1].value, Listed(Latest(before));
        TellingChangesIsEnough(snapshot, items, Told(map[], Written(before)));
        ToldInTwoParts(map[], Written(before), Changes(snapshot, items));
      }
    }
  }

  /** What a client of an open connection makes of the events it was sent is the snapshot, on every live run. */
  lemma StreamsTellTheSnapshot(s: Stream)
    requires s.Valid()
    ensures Agrees(Told(map[], s.sent), s.snapshot)
  {
    ClientsSeeTheLatestList(s.polls);
  }

  /** An unchanged list is silent. */
  lemma UnchangedListIsSilent(items: seq<Item>)
    requires UniqueNames(items)
    ensures Changes(Listed(items), items) == []
  {
    OneEventPerChange(Listed(items), items);
    var c := Changes(Listed(items), items);
    if c != [] {
      assert c[0] in items;
      var i :| 0 <= i < |items| && items[i] == c[0];
      ListedPhase(items, i);
      assert false;
    }
  }

  /******* The connection limit *******/

  const MAX_CONNECTIONS: nat := 50

  /**
   `refused` holds the handlers between their refused increment and its undo; `counter` is the
   shared atomic.
   */
  datatype Limiter = Limiter(counter: int, admitted: set<nat>, refused: set<nat>)

  /** Each step is one atomic operation on the counter, by the handler with that number. */
  datatype Step = Enter(h: nat) | Undo(h: nat) | Leave(h: nat)

  function Take(l: Limiter, s: Step): Limiter {
    match s
    case Enter(h) =>
      if h in l.admitted || h in l.refused then l
      else if l.counter + 1 > MAX_CONNECTIONS then l.(counter := l.counter + 1, refused := l.refused + {h})
      else l.(counter := l.counter + 1, admitted := l.admitted + {h})
    case Undo(h) => if h in l.refused then l.(counter := l.counter - 1, refused := l.refused - {h}) else l
    case Leave(h) => if h in l.admitted then l.(counter := l.counter - 1, admitted := l.admitted - {h}) else l
  }

  function Interleave(steps: seq<Step>): Limiter {
    if steps == [] then Limiter(0, {}, {}) else Take(Interleave(steps[..|steps| - 1]), steps[|steps| - 1])
  }

  /**
   In every interleaving the counter is the number of admitted connections plus the refused ones still to
   be undone, no more than the maximum is ever admitted, and when every handler has left it is back at 0.
   */
  lemma {:induction false} LimitHolds(steps: seq<Step>)
    ensures var l := Interleave(steps);
            && l.counter == |l.admitted| + |l.refused|
            && |l.admitted| <= 50
            && l.admitted !! l.refused
            && (l.admitted == {} && l.refused == {} ==> l.counter == 0)
  {
    if steps != [] {
      LimitHolds(steps[..|steps| - 1]);
    }
  }

  /**
   A newcomer is turned away exactly when admitted and not yet undone handlers together fill the limit, so
   one can be refused although a slot is free.
   */
  lemma RefusedIffFull(steps: seq<Step>, h: nat)
    requires h !in Interleave(steps).admitted && h !in Interleave(steps).refused
    ensures var l := Interleave(steps);
            h in Take(l, Enter(h)).refused <==> |l.admitted| + |l.refused| >= 50
  {
    LimitHolds(steps);
  }

  /** Handlers 0, 1, ... enter one after the other. */
  function Enters(k: nat): seq<Step> {
    if k == 0 then [] else Enters(k - 1) + [Enter(k - 1)]
  }

  function Handlers(k: nat): (hs: set<nat>)
    ensures forall h: nat :: h in hs <==> h < k
  {
    if k == 0 then {} else Handlers(k - 1) + {k - 1}
  }

  lemma {:induction false} FirstComersAreAdmitted(k: nat)
    requires k <= MAX_CONNECTIONS
    ensures Interleave(Enters(k)) == Limiter(k, Handlers(k), {})
  {
    if k > 0 {
      FirstComersAreAdmitted(k - 1);
      InterleaveOfAppended(Enters(k - 1), Enter(k - 1));
    }
  }

  lemma InterleaveOfAppended(steps: seq<Step>, s: Step)
    ensures Interleave(steps + [s]) == Take(Interleave(steps), s)
  {
    assert (steps + [s])[..|steps|] == steps;
  }

  /** All slots are taken, one more is refused, and then the first handler leaves. */
  lemma AfterTheFirstRefusal(k: nat)
    requires k == MAX_CONNECTIONS
    ensures Interleave(Enters(k) + [Enter(k)] + [Leave(0)]) == Limiter(k, Handlers(k) - {0}, {k})
  {
    FirstComersAreAdmitted(k);
    InterleaveOfAppended(Enters(k), Enter(k));
    InterleaveOfAppended(Enters(k) + [Enter(k)], Leave(0));
  }

  /** Before the refused handler has undone its count, a slot is free and a newcomer is refused all the same. */
  lemma RefusedWithAFreeSlot() returns (steps: seq<Step>, newcomer: nat)
    ensures |Interleave(steps).admitted| < MAX_CONNECTIONS
    ensures newcomer !in Interleave(steps).admitted && newcomer !in Interleave(steps).refused
    ensures newcomer in Take(Interleave(steps), Enter(newcomer)).refused
  {
    var k := MAX_CONNECTIONS;
    steps, newcomer := Enters(k) + [Enter(k)] + [Leave(0)], k + 1;
    AfterTheFirstRefusal(k);
    LimitHolds(steps);
    RefusedIffFull(steps, newcomer);
  }
}
