/** The tc(8) command line and the shell script that NetworkChaos runs in a pod. */
module TrafficControl {
  import opened Wrappers
  import opened ChaosApi
  import opened Text

  const MILLISECOND: int := 1_000_000
  const MICROSECOND: int := 1_000

  datatype Rule = Rule(
    interface: string, latency: int, jitter: int, lossPct: int32, bandwidth: string, peerCidr: string)

  predicate ShellSafeChar(c: char) {
    'a' <= c <= 'z' || 'A' <= c <= 'Z' || '0' <= c <= '9' || c in ".:/% -"
  }

  predicate ShellSafe(s: string) {
    forall i :: 0 <= i < |s| ==> ShellSafeChar(s[i])
  }

  datatype Unit = S | Ms | Us {
    function Suffix(): string {
      match this case S => "s" case Ms => "ms" case Us => "us"
    }

    function Nanos(): int {
      match this case S => SECOND case Ms => MILLISECOND case Us => MICROSECOND
    }
  }

  /** The largest unit among s, ms and us; anything finer than a microsecond is dropped. */
  function FormatDuration(d: nat): string {
    if d % SECOND == 0 then Decimal(d / SECOND) + S.Suffix()
    else if d % MILLISECOND == 0 then Decimal(d / MILLISECOND) + Ms.Suffix()
    else Decimal(d / MICROSECOND) + Us.Suffix()
  }

  /** How tc reads such a text back. */
  function ParseDuration(s: string): int {
    var beforeLast := if |s| >= 2 then s[|s| - 2] else '0';
    if beforeLast == 'm' then ParseDecimal(s[..|s| - 2]) * MILLISECOND
    else if beforeLast == 'u' then ParseDecimal(s[..|s| - 2]) * MICROSECOND
    else if |s| >= 1 then ParseDecimal(s[..|s| - 1]) * SECOND
    else 0
  }

  function AddArgs(r: Rule): (args: seq<string>)
    ensures args != []
  {
    if r.bandwidth != "" then
      ["tc", "qdisc", "add", "dev", r.interface, "root", "tbf", "rate", r.bandwidth,
       "burst", "32kbit", "latency", "400ms"]
    else
      ["tc", "qdisc", "add", "dev", r.interface, "root", "netem"]
      + (if r.latency > 0 then ["delay", FormatDuration(r.latency)] else [])
      + (if r.latency > 0 && r.jitter > 0 then [FormatDuration(r.jitter)] else [])
      + (if r.lossPct > 0 then ["loss", Decimal(r.lossPct) + "%"] else [])
  }

  function FilterArgs(r: Rule, handle: string): seq<string>
    requires r.peerCidr != ""
  {
    ["tc", "filter", "add", "dev", r.interface, "parent", handle, "protocol", "ip",
     "u32", "match", "ip", "dst", r.peerCidr, "flowid", handle]
  }

  function SleepSeconds(d: int): nat {
    if d < SECOND then 1 else d / SECOND
  }

  function Prologue(interface: string): seq<string> {
    ["#!/bin/sh", "set -e", "_cleanup() {", "  tc qdisc del dev " + interface + " root 2>/dev/null || true", "}",
     "trap '_cleanup' TERM INT"]
  }

  function Epilogue(duration: int): seq<string> {
    ["sleep " + Decimal(SleepSeconds(duration)) + " &", "SLEEP_PID=$!", "wait $SLEEP_PID", "_cleanup"]
  }

  function Commands(r: Rule): seq<string> {
    [Join(AddArgs(r), ' ')]
    + (if r.bandwidth == "" && r.peerCidr != "" then [Join(FilterArgs(r, "1:"), ' ')] else [])
  }

  const ADD_LINE: nat := 6

  function ScriptLines(r: Rule, duration: int): (lines: seq<string>)
    ensures |lines| > ADD_LINE && lines[ADD_LINE] == Join(AddArgs(r), ' ')
  {
    Prologue(r.interface) + Commands(r) + Epilogue(duration)
  }

  predicate ScriptPanics(r: Rule) {
    !ShellSafe(r.interface) || !ShellSafe(r.bandwidth) || !ShellSafe(r.peerCidr)
  }

  /** None stands for the panic. */
  function EntrypointScript(r: Rule, duration: int): Option<string> {
    if ScriptPanics(r) then None else Some(Join(ScriptLines(r, duration) + [""], '\n'))
  }

  function BuildRule(n: NetworkSpec): Rule {
    Rule("eth0", n.latency.GetOr(0), n.jitter.GetOr(0), n.loss.GetOr(0), n.bandwidth,
         match n.endpoint case Some(x) => x.cidr case None => "")
  }

  /******* Durations survive printing to the microsecond *******/

  lemma UnitRoundTrip(q: nat, u: Unit)
    ensures ParseDuration(Decimal(q) + u.Suffix()) == q * u.Nanos()
  {
    DecimalRoundTrip(q);
    var digits, s := Decimal(q), Decimal(q) + u.Suffix();
    assert s[..|digits|] == digits;
    assert '0' <= digits[|digits| - 1] <= '9';
  }

  lemma MultiplesAreMultiples(d: nat, k: nat)
    requires k > 0 && d % (MICROSECOND * k) == 0
    ensures d % MICROSECOND == 0
  {
    var q := d / (MICROSECOND * k);
    assert d == MICROSECOND * (k * q);
  }

  lemma CoarserUnitsAreWholeMicroseconds(d: nat)
    ensures d % SECOND == 0 || d % MILLISECOND == 0 ==> d % MICROSECOND == 0
  {
    if d % SECOND == 0 {
      MultiplesAreMultiples(d, 1_000_000);
    } else if d % MILLISECOND == 0 {
      MultiplesAreMultiples(d, 1_000);
    }
  }

  lemma DurationRoundTrip(d: nat)
    ensures ParseDuration(FormatDuration(d)) == d - d % MICROSECOND
    ensures ParseDuration(FormatDuration(d)) == d <==> d % MICROSECOND == 0
  {
    CoarserUnitsAreWholeMicroseconds(d);
    if d % SECOND == 0 {
      UnitRoundTrip(d / SECOND, S);
    } else if d % MILLISECOND == 0 {
      UnitRoundTrip(d / MILLISECOND, Ms);
    } else {
      UnitRoundTrip(d / MICROSECOND, Us);
    }
  }

  /******* The script *******/

  predicate Plain(s: string) { ' ' !in s && '\n' !in s }

  lemma FormattedDurationIsPlain(d: nat)
    ensures Plain(FormatDuration(d))
  {
  }

  predicate AllPlain(args: seq<string>) { forall a <- args :: Plain(a) }

  lemma NetemOptionsArePlain(r: Rule)
    ensures r.latency > 0 ==> AllPlain(["delay", FormatDuration(r.latency)])
    ensures r.latency > 0 && r.jitter > 0 ==> AllPlain([FormatDuration(r.jitter)])
    ensures r.lossPct > 0 ==> AllPlain(["loss", Decimal(r.lossPct) + "%"])
  {
    if r.latency > 0 { FormattedDurationIsPlain(r.latency); }
    if r.jitter > 0 { FormattedDurationIsPlain(r.jitter); }
  }

  lemma AddArgsArePlain(r: Rule)
    requires Plain(r.interface) && Plain(r.bandwidth)
    ensures AllPlain(AddArgs(r))
  {
    if r.bandwidth == "" {
      NetemOptionsArePlain(r);
      assert AllPlain(["tc", "qdisc", "add", "dev", r.interface, "root", "netem"]);
    }
  }

  lemma {:induction false} JoinHasNoNewline(parts: seq<string>, sep: char)
    requires parts != [] && sep != '\n'
    requires forall p <- parts :: '\n' !in p
    ensures '\n' !in Join(parts, sep)
  {
    if |parts| > 1 {
      JoinHasNoNewline(parts[1..], sep);
    }
  }

  lemma ShellSafeHasNoNewline(s: string)
    requires ShellSafe(s)
    ensures '\n' !in s
  {
  }

  lemma FixedLinesAreLines(interface: string, duration: int)
    requires '\n' !in interface
    ensures forall l <- Prologue(interface) :: '\n' !in l
    ensures forall l <- Epilogue(duration) :: '\n' !in l
  {
    assert '\n' !in Decimal(SleepSeconds(duration));
  }

  lemma CommandsAreLines(r: Rule)
    requires Plain(r.interface) && Plain(r.bandwidth) && ShellSafe(r.peerCidr)
    ensures forall l <- Commands(r) :: '\n' !in l
  {
    AddArgsArePlain(r);
    JoinHasNoNewline(AddArgs(r), ' ');
    if r.bandwidth == "" && r.peerCidr != "" {
      ShellSafeHasNoNewline(r.peerCidr);
      FilterArgsAreLines(r);
      JoinHasNoNewline(FilterArgs(r, "1:"), ' ');
    }
  }

  lemma FilterArgsAreLines(r: Rule)
    requires Plain(r.interface) && r.peerCidr != "" && '\n' !in r.peerCidr
    ensures forall a <- FilterArgs(r, "1:") :: '\n' !in a
  {
  }

  /** A rate is one word and, but for the Kelvin sign, safe in a shell. */
  lemma RatesArePlain(s: string)
    requires s == "" || IsRate(s)
    ensures Plain(s)
    ensures ShellSafe(s) <==> KELVIN !in s
  {
    if s != "" {
      forall i | 0 <= i < |s|
        ensures s[i] != ' ' && s[i] != '\n' && (ShellSafeChar(s[i]) <==> s[i] != KELVIN)
      {
        if i >= |s| - 4 { assert i == |s| - 4 || i == |s| - 3 || i == |s| - 2 || i == |s| - 1; }
      }
      assert forall i :: 0 <= i < |s| ==> (s[i] == KELVIN ==> !ShellSafeChar(s[i]));
    }
  }

  /**
   Validation is meant to make the panic impossible. It does so exactly when the endpoint's CIDR text is
   shell-safe and the rate has no Kelvin sign; with an external target or no endpoint only the rate matters.
   */
  lemma ScriptPanicsIffTextUnsafe(n: NetworkSpec)
    requires ValidNetwork(NetworkChaos, n)
    ensures ScriptPanics(BuildRule(n)) <==>
              (n.endpoint.Some? && !ShellSafe(n.endpoint.value.cidr)) || KELVIN in n.bandwidth
    ensures External(n.target) || n.endpoint.None? ==> (ScriptPanics(BuildRule(n)) <==> KELVIN in n.bandwidth)
  {
    RatesArePlain(n.bandwidth);
  }

  /** The Kelvin sign passes validation as a k and then makes the printer panic. */
  lemma KelvinRatePanics(n: NetworkSpec)
    requires n.target == TMtoExternal && n.endpoint == Some(ExternalEndpoint("10.0.0.0/8", 0))
    requires n.latency.None? && n.jitter.None? && n.bandwidth == "10\U{212A}bit"
    ensures ValidNetwork(NetworkChaos, n) && ShellSafe(n.endpoint.value.cidr) && ScriptPanics(BuildRule(n))
  {
    assert n.bandwidth[2] == KELVIN;
    assert '/' == n.endpoint.value.cidr[8];
    assert IsRate(n.bandwidth);
    ScriptPanicsIffTextUnsafe(n);
  }

  /** Splitting the script gives back its lines. */
  lemma ScriptSplits(n: NetworkSpec, duration: int)
    requires ValidNetwork(NetworkChaos, n) && !ScriptPanics(BuildRule(n))
    ensures EntrypointScript(BuildRule(n), duration).Some?
    ensures Split(EntrypointScript(BuildRule(n), duration).value, '\n') == ScriptLines(BuildRule(n), duration) + [""]
  {
    var r := BuildRule(n);
    RatesArePlain(n.bandwidth);
    FixedLinesAreLines(r.interface, duration);
    CommandsAreLines(r);
    SplitJoin(ScriptLines(r, duration) + [""], '\n');
  }

  /** Splitting the script into lines and the add line into words gives back the argument vector. */
  lemma ScriptRunsTheRule(n: NetworkSpec, duration: int)
    requires ValidNetwork(NetworkChaos, n) && !ScriptPanics(BuildRule(n))
    ensures EntrypointScript(BuildRule(n), duration).Some?
    ensures var lines := Split(EntrypointScript(BuildRule(n), duration).value, '\n');
            |lines| > ADD_LINE && Split(lines[ADD_LINE], ' ') == AddArgs(BuildRule(n))
  {
    var r := BuildRule(n);
    ScriptSplits(n, duration);
    RatesArePlain(n.bandwidth);
    AddArgsArePlain(r);
    SplitJoin(AddArgs(r), ' ');
  }

  lemma {:induction false} SplitPartsHaveNoSeparator(s: string, sep: char)
    ensures forall p <- Split(s, sep) :: sep !in p
  {
    if s != "" {
      SplitPartsHaveNoSeparator(s[1..], sep);
    }
  }

  lemma FilterLineIsThere(r: Rule, duration: int)
    requires r.bandwidth == "" && r.peerCidr != ""
    ensures |ScriptLines(r, duration)| > ADD_LINE + 1
    ensures ScriptLines(r, duration)[ADD_LINE + 1] == Join(FilterArgs(r, "1:"), ' ')
  {
  }

  lemma FilterLineRoundTripIff(r: Rule)
    requires Plain(r.interface) && r.peerCidr != ""
    ensures Split(Join(FilterArgs(r, "1:"), ' '), ' ') == FilterArgs(r, "1:") <==> ' ' !in r.peerCidr
  {
    var args := FilterArgs(r, "1:");
    if ' ' !in r.peerCidr {
      assert forall a <- args :: ' ' !in a;
      SplitJoin(args, ' ');
    } else {
      SplitPartsHaveNoSeparator(Join(args, ' '), ' ');
      assert args[13] == r.peerCidr;
    }
  }

  /**
   With a CIDR the script has a second command. It reads back as its argument vector exactly when the CIDR text
   has no space, which validation ensures for an external target.
   */
  lemma ScriptFiltersThePeer(n: NetworkSpec, duration: int)
    requires ValidNetwork(NetworkChaos, n) && !ScriptPanics(BuildRule(n))
    requires n.bandwidth == "" && n.endpoint.Some? && n.endpoint.value.cidr != ""
    ensures EntrypointScript(BuildRule(n), duration).Some?
    ensures var lines := Split(EntrypointScript(BuildRule(n), duration).value, '\n');
            && |lines| > ADD_LINE + 1
            && (Split(lines[ADD_LINE + 1], ' ') == FilterArgs(BuildRule(n), "1:") <==> ' ' !in n.endpoint.value.cidr)
    ensures External(n.target) ==> ' ' !in n.endpoint.value.cidr
  {
    var r := BuildRule(n);
    ScriptSplits(n, duration);
    FilterLineIsThere(r, duration);
    FilterLineRoundTripIff(r);
  }

  /******* What the commands say *******/

  /** What netem options ask for: a delay and its variation in nanoseconds, and a loss in per cent. */
  datatype Impairment = Impairment(delay: int, jitter: int, loss: int)

  /** Reads the options of a netem command word by word. */
  function ReadOptions(words: seq<string>): Impairment {
    if |words| >= 2 && words[0] == "delay" then
      if |words| >= 3 && words[2] != "loss" then
        ReadOptions(words[3..]).(delay := ParseDuration(words[1]), jitter := ParseDuration(words[2]))
      else
        ReadOptions(words[2..]).(delay := ParseDuration(words[1]))
    else if |words| >= 2 && words[0] == "loss" && words[1] != "" then
      ReadOptions(words[2..]).(loss := ParseDecimal(words[1][..|words[1]| - 1]))
    else Impairment(0, 0, 0)
  }

  lemma LossReadsBack(p: nat)
    requires p > 0
    ensures ReadOptions(["loss", Decimal(p) + "%"]) == Impairment(0, 0, p)
  {
    var words := ["loss", Decimal(p) + "%"];
    DecimalRoundTrip(p);
    assert words[1][..|words[1]| - 1] == Decimal(p);
    assert words[2..] == [];
  }

  lemma DurationIsNoKeyword(d: nat)
    ensures FormatDuration(d) != "loss"
  {
    assert '0' <= FormatDuration(d)[0] <= '9';
  }

  function LossOption(p: int): seq<string> {
    if p > 0 then ["loss", Decimal(p) + "%"] else []
  }

  lemma DelayReadsBack(d: nat, p: int)
    ensures var rest := ReadOptions(LossOption(p));
            ReadOptions(["delay", FormatDuration(d)] + LossOption(p)) == rest.(delay := ParseDuration(FormatDuration(d)))
  {
    var words := ["delay", FormatDuration(d)] + LossOption(p);
    assert words[2..] == LossOption(p);
  }

  lemma JitterReadsBack(d: nat, j: nat, p: int)
    ensures var rest := ReadOptions(LossOption(p));
            ReadOptions(["delay", FormatDuration(d), FormatDuration(j)] + LossOption(p)) ==
              rest.(delay := ParseDuration(FormatDuration(d)), jitter := ParseDuration(FormatDuration(j)))
  {
    var words := ["delay", FormatDuration(d), FormatDuration(j)] + LossOption(p);
    DurationIsNoKeyword(j);
    assert words[3..] == LossOption(p);
  }

  /** Rounded down to a microsecond; nothing when it is not given or not positive. */
  function Micros(d: Option<int>): int {
    if d.Some? && d.value > 0 then d.value - d.value % 1_000 else 0
  }

  /** Without a bandwidth the add command is a netem qdisc that impairs as the specification says. */
  lemma CommandImpairsAsSpecified(n: NetworkSpec)
    requires n.bandwidth == ""
    ensures var args := AddArgs(BuildRule(n));
            && |args| >= 7 && args[..7] == ["tc", "qdisc", "add", "dev", "eth0", "root", "netem"]
            && ReadOptions(args[7..]) ==
               Impairment(Micros(n.latency), if n.latency.GetOr(0) > 0 then Micros(n.jitter) else 0,
                          if n.loss.GetOr(0) > 0 then n.loss.value else 0)
  {
    var r := BuildRule(n);
    var loss := LossOption(r.lossPct);
    if r.lossPct > 0 { LossReadsBack(r.lossPct); }
    if r.latency > 0 {
      DurationRoundTrip(r.latency);
      if r.jitter > 0 {
        DurationRoundTrip(r.jitter);
        JitterReadsBack(r.latency, r.jitter, r.lossPct);
        assert AddArgs(r)[7..] == ["delay", FormatDuration(r.latency), FormatDuration(r.jitter)] + loss;
      } else {
        DelayReadsBack(r.latency, r.lossPct);
        assert AddArgs(r)[7..] == ["delay", FormatDuration(r.latency)] + loss;
      }
    } else {
      assert AddArgs(r)[7..] == loss;
    }
  }

  /** With one it is a token bucket of that rate; the filter names the endpoint's CIDR. */
  lemma CommandNamesRateAndPeer(n: NetworkSpec)
    ensures n.bandwidth != "" ==>
              AddArgs(BuildRule(n)) == ["tc", "qdisc", "add", "dev", "eth0", "root", "tbf", "rate", n.bandwidth,
                                        "burst", "32kbit", "latency", "400ms"]
    ensures n.endpoint.Some? && n.endpoint.value.cidr != "" ==>
              FilterArgs(BuildRule(n), "1:") == ["tc", "filter", "add", "dev", "eth0", "parent", "1:", "protocol", "ip",
                                                 "u32", "match", "ip", "dst", n.endpoint.value.cidr, "flowid", "1:"]
  {
  }

  lemma SleepIsWholeSeconds(duration: int)
    ensures var k := SleepSeconds(duration);
            k >= 1 && if duration < 1_000_000_000 then k == 1 else 0 <= duration - k * 1_000_000_000 < 1_000_000_000
  {
  }

  /** The lines before the commands: what to do when told to stop. */
  predicate TrapsStop(lines: seq<string>) {
    && |lines| >= 6
    && lines[2] == "_cleanup() {" && lines[3] == "  tc qdisc del dev eth0 root 2>/dev/null || true" && lines[4] == "}"
    && lines[5] == "trap '_cleanup' TERM INT"
  }

  /** The lines after them: wait for that many seconds, and clean up. */
  predicate SleepsAndCleansUp(lines: seq<string>, k: nat) {
    && |lines| >= 5
    && lines[|lines| - 5] == "sleep " + Decimal(k) + " &" && lines[|lines| - 4] == "SLEEP_PID=$!"
    && lines[|lines| - 3] == "wait $SLEEP_PID" && lines[|lines| - 2] == "_cleanup" && lines[|lines| - 1] == ""
  }

  lemma PrologueTrapsStop(rest: seq<string>)
    ensures TrapsStop(Prologue("eth0") + rest)
  {
    var start, interface := Prologue("eth0"), "eth0";
    assert start[3] == "  tc qdisc del dev " + interface + " root 2>/dev/null || true";
    assert "  tc qdisc del dev " + interface + " root 2>/dev/null || true"
           == "  tc qdisc del dev eth0 root 2>/dev/null || true";
  }

  lemma EpilogueSleeps(front: seq<string>, duration: int)
    ensures SleepsAndCleansUp(front + Epilogue(duration) + [""], SleepSeconds(duration))
  {
    var end, lines := Epilogue(duration), front + Epilogue(duration) + [""];
    assert forall i :: 0 <= i < 4 ==> lines[|front| + i] == end[i];
  }

  lemma LinesAreFramed(middle: seq<string>, duration: int)
    ensures var lines := Prologue("eth0") + middle + Epilogue(duration) + [""];
            TrapsStop(lines) && SleepsAndCleansUp(lines, SleepSeconds(duration))
  {
    var rest := middle + Epilogue(duration) + [""];
    PrologueTrapsStop(rest);
    EpilogueSleeps(Prologue("eth0") + middle, duration);
    assert Prologue("eth0") + middle + Epilogue(duration) + [""] == Prologue("eth0") + rest;
  }

  /**
   The script sleeps for the duration in whole seconds, at least one, and then removes the qdisc, as it does when
   it is told to stop.
   */
  lemma ScriptSleepsAndCleansUp(n: NetworkSpec, duration: int)
    requires ValidNetwork(NetworkChaos, n) && !ScriptPanics(BuildRule(n))
    ensures EntrypointScript(BuildRule(n), duration).Some?
    ensures var lines := Split(EntrypointScript(BuildRule(n), duration).value, '\n');
            TrapsStop(lines) && SleepsAndCleansUp(lines, SleepSeconds(duration))
    ensures var k := SleepSeconds(duration);
            k >= 1 && if duration < 1_000_000_000 then k == 1 else 0 <= duration - k * 1_000_000_000 < 1_000_000_000
  {
    ScriptSplits(n, duration);
    LinesAreFramed(Commands(BuildRule(n)), duration);
    SleepIsWholeSeconds(duration);
  }
}
