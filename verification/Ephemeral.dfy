/** Naming and inspecting the ephemeral containers the drivers start. */
module Ephemeral {
  import opened Text

  const MAX_NAME: nat := 63
  const TC_PREFIX: string := "fchaos-tc-"
  const STRESS_PREFIX: string := "fchaos-stress-"

  /** Go's int on 64-bit platforms bounds every slice index. */
  const MAX_INT: nat := 0x7fff_ffff_ffff_ffff

  function Truncate(s: string, n: nat): string {
    if |s| > n then s[..n] else s
  }

  function ContainerName(prefix: string, runName: string, index: nat): (name: string)
    ensures |name| <= 63
  {
    var suffix := "-" + Decimal(index);
    var maxName := MAX_NAME - |prefix| - |suffix|;
    var truncated := Truncate(Truncate(runName, 20), if maxName < 0 then 0 else maxName);
    Truncate(prefix + truncated + suffix, MAX_NAME)
  }

  lemma NameKeepsItsSuffix(prefix: string, runName: string, index: nat)
    requires |prefix| <= 14 && index <= MAX_INT
    ensures ContainerName(prefix, runName, index) == prefix + Truncate(runName, 20) + "-" + Decimal(index)
  {
    assert Pow10(5) == 100_000;
    assert Pow10(10) == 10_000_000_000;
    assert Pow10(15) == 1_000_000_000_000_000;
    assert Pow10(19) == 10_000_000_000_000_000_000;
    DecimalLength(index, 19);
    var name := prefix + Truncate(runName, 20) + "-" + Decimal(index);
    assert prefix + Truncate(runName, 20) + ("-" + Decimal(index)) == name;
  }

  /** The text before the last dash and the number after it are both determined by the whole. */
  lemma StemAndNumber(stem: string, stem': string, i: nat, j: nat)
    requires stem + "-" + Decimal(i) == stem' + "-" + Decimal(j)
    ensures stem == stem' && i == j
  {
    var a, b := stem + "-" + Decimal(i), stem' + "-" + Decimal(j);
    assert a[|stem|] == '-' && b[|stem'|] == '-';
    assert forall k :: |stem| < k < |a| ==> a[k] == Decimal(i)[k - |stem| - 1];
    assert forall k :: |stem'| < k < |b| ==> b[k] == Decimal(j)[k - |stem'| - 1];
    assert |stem| == |stem'|;
    assert a[..|stem|] == stem && b[..|stem'|] == stem';
    assert a[|stem| + 1..] == Decimal(i) && b[|stem'| + 1..] == Decimal(j);
    DecimalIsInjective(i, j);
  }

  /** Names keep 20 characters of the run's name, so two runs that agree in them collide at equal positions. */
  lemma ContainerNamesCollideIff(prefix: string, run: string, run': string, i: nat, j: nat)
    requires prefix == TC_PREFIX || prefix == STRESS_PREFIX
    requires i <= MAX_INT && j <= MAX_INT
    ensures ContainerName(prefix, run, i) == ContainerName(prefix, run', j)
            <==> Truncate(run, 20) == Truncate(run', 20) && i == j
  {
    NameKeepsItsSuffix(prefix, run, i);
    NameKeepsItsSuffix(prefix, run', j);
    var stem, stem' := prefix + Truncate(run, 20), prefix + Truncate(run', 20);
    if ContainerName(prefix, run, i) == ContainerName(prefix, run', j) {
      StemAndNumber(stem, stem', i, j);
      assert stem[|prefix|..] == Truncate(run, 20) && stem'[|prefix|..] == Truncate(run', 20);
    }
  }

  /** With either driver's prefix, pods at different positions never get the same container name. */
  lemma ContainerNameIsInjective(prefix: string, runName: string, i: nat, j: nat)
    requires prefix == TC_PREFIX || prefix == STRESS_PREFIX
    requires i <= MAX_INT && j <= MAX_INT
    ensures ContainerName(prefix, runName, i) == ContainerName(prefix, runName, j) ==> i == j
  {
    ContainerNamesCollideIff(prefix, runName, runName, i, j);
  }
}
