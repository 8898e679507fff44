/**
 NetworkPolicy objects as the partition builder makes them, and what a set of
 policies lets through under the networking.k8s.io/v1 rules: policies only
 add permissions, and a pod that no policy selects for a direction is open in it.
 */
module NetworkPolicies {
  import opened Wrappers
  import opened ChaosApi

  type Labels = map<string, string>

  datatype Protocol = TCP | UDP | SCTP

  datatype PortRule = PortRule(protocol: Protocol, port: int32)

  datatype Peer = PodPeer(labels: Labels) | IpBlock(cidr: string, except: seq<string>)

  /** Empty `ports` means every port, empty `peers` means every peer. */
  datatype Rule = Rule(ports: seq<PortRule>, peers: seq<Peer>)

  datatype PolicyType = IngressType | EgressType

  /** `runName` is the label chaos.flink.io/run-name. */
  datatype Policy = Policy(
    name: string, runName: Option<string>, podSelector: Labels,
    types: set<PolicyType>, ingress: seq<Rule>, egress: seq<Rule>)

  /******* The builder *******/

  datatype PolicySpec = PolicySpec(
    name: string, runName: string, sourceLabels: Labels, destCidr: string, direction: Direction, port: int32)

  const ALL_IPV4: string := "0.0.0.0/0"

  function BuildPorts(port: int32): seq<PortRule> {
    if port == 0 then [] else [PortRule(TCP, port)]
  }

  function Build(s: PolicySpec): Policy {
    var bare := Policy(s.name, Some(s.runName), s.sourceLabels, {}, [], []);
    if s.destCidr != "" then
      var allowAllExcept := [Rule(BuildPorts(s.port), [IpBlock(ALL_IPV4, [s.destCidr])])];
      match s.direction
      case Ingress => bare.(types := {IngressType})
      case Both => bare.(types := {IngressType, EgressType}, egress := allowAllExcept)
      case _ => bare.(types := {EgressType}, egress := allowAllExcept)
    else
      match s.direction
      case Egress => bare.(types := {EgressType})
      case Ingress => bare.(types := {IngressType})
      case _ => bare.(types := {IngressType, EgressType})
  }

  function IngressName(run: string): string { run + "-netpol-ingress" }

  function EgressName(run: string): string { run + "-netpol-egress" }

  /** The policies the driver creates for a direction, in creation order. */
  function DriverPolicies(s: PolicySpec): seq<Policy> {
    var i := Build(s.(name := IngressName(s.runName), direction := Ingress));
    var e := Build(s.(name := EgressName(s.runName), direction := Egress));
    match s.direction
    case Ingress => [i]
    case Egress => [e]
    case _ => [i, e]
  }

  /** No two runs share a policy name, and a run's two names differ. */
  lemma PolicyNamesAreDistinct(r: string, r': string)
    ensures IngressName(r) != EgressName(r')
    ensures IngressName(r) == IngressName(r') ==> r == r'
    ensures EgressName(r) == EgressName(r') ==> r == r'
  {
    var i, e := IngressName(r), EgressName(r');
    assert i[|i| - 7] == 'i' && e[|e| - 7] == '-';
    assert IngressName(r)[..|IngressName(r)| - 15] == r && IngressName(r')[..|IngressName(r')| - 15] == r';
    assert EgressName(r)[..|EgressName(r)| - 14] == r && EgressName(r')[..|EgressName(r')| - 14] == r';
  }

  /******* What the cluster lets through *******/

  datatype Address = V4(bits: int) | V6(bits: int)

  datatype Endpoint = Endpoint(labels: Labels, address: Address)

  /** Traffic between the pod with labels `pod` and `peer`; `egress` is the pod's point of view. */
  datatype Flow = Flow(pod: Labels, egress: bool, peer: Endpoint, protocol: Protocol, port: int32)

  /** Which IPv4 addresses a CIDR text covers. Every result below holds for every such reading. */
  type CidrReading = (string, int) -> bool

  ghost predicate CoversAll(inside: CidrReading) {
    forall ip :: inside("0.0.0.0/0", ip)
  }

  predicate Selects(selector: Labels, labels: Labels) {
    forall k <- selector :: k in labels && labels[k] == selector[k]
  }

  predicate PeerMatches(p: Peer, e: Endpoint, inside: CidrReading) {
    match p
    case PodPeer(labels) => Selects(labels, e.labels)
    case IpBlock(cidr, except) =>
      && e.address.V4?
      && inside(cidr, e.address.bits)
      && forall i :: 0 <= i < |except| ==> !inside(except[i], e.address.bits)
  }

  predicate RuleMatches(r: Rule, f: Flow, inside: CidrReading) {
    && (r.ports == [] || PortRule(f.protocol, f.port) in r.ports)
    && (r.peers == [] || exists p <- r.peers :: PeerMatches(p, f.peer, inside))
  }

  predicate Isolates(p: Policy, f: Flow) {
    Selects(p.podSelector, f.pod) && (if f.egress then EgressType else IngressType) in p.types
  }

  predicate SomeRuleMatches(rules: seq<Rule>, f: Flow, inside: CidrReading) {
    exists r <- rules :: RuleMatches(r, f, inside)
  }

  predicate Permits(p: Policy, f: Flow, inside: CidrReading) {
    Isolates(p, f) && SomeRuleMatches(if f.egress then p.egress else p.ingress, f, inside)
  }

  ghost predicate Allowed(policies: set<Policy>, f: Flow, inside: CidrReading) {
    (forall p <- policies :: !Isolates(p, f)) || (exists p <- policies :: Permits(p, f, inside))
  }

  ghost function ToSet(ps: seq<Policy>): set<Policy> {
    set p | p in ps
  }

  /** A policy built for Both isolates and permits what the two separate policies do together. */
  lemma BothIsIngressAndEgress(s: PolicySpec, f: Flow, inside: CidrReading)
    requires s.direction == Both
    ensures Isolates(Build(s), f) <==> exists p <- ToSet(DriverPolicies(s)) :: Isolates(p, f)
    ensures Permits(Build(s), f, inside) <==> exists p <- ToSet(DriverPolicies(s)) :: Permits(p, f, inside)
  {
    var i, e, b := DriverPolicies(s)[0], DriverPolicies(s)[1], Build(s);
    assert ToSet(DriverPolicies(s)) == {i, e};
    assert Isolates(b, f) <==> Isolates(if f.egress then e else i, f);
    assert f.egress ==> !Isolates(i, f) && b.egress == e.egress;
    assert !f.egress ==> !Isolates(e, f) && b.ingress == i.ingress;
    assert Permits(b, f, inside) <==> Permits(if f.egress then e else i, f, inside);
  }

  /** Splitting a Both partition into two policies changes nothing, whatever other policies exist. */
  lemma SplitPoliciesAreEquivalent(others: set<Policy>, s: PolicySpec, f: Flow, inside: CidrReading)
    requires s.direction == Both
    ensures Allowed(others + ToSet(DriverPolicies(s)), f, inside) <==> Allowed(others + {Build(s)}, f, inside)
  {
    BothIsIngressAndEgress(s, f, inside);
    var split, joint := others + ToSet(DriverPolicies(s)), others + {Build(s)};
    assert (exists p <- split :: Isolates(p, f)) <==> (exists p <- joint :: Isolates(p, f)) by {
      if p :| p in joint && Isolates(p, f) { assert p in split || p == Build(s); }
      if p :| p in split && Isolates(p, f) { assert p in others || Isolates(Build(s), f); assert Build(s) in joint; }
    }
    assert (exists p <- split :: Permits(p, f, inside)) <==> (exists p <- joint :: Permits(p, f, inside)) by {
      if p :| p in joint && Permits(p, f, inside) { assert p in split || p == Build(s); }
      if p :| p in split && Permits(p, f, inside) {
        assert p in others || Permits(Build(s), f, inside); assert Build(s) in joint;
      }
    }
  }

  predicate Covers(d: Direction, egress: bool) {
    match d
    case Ingress => !egress
    case Egress => egress
    case _ => true
  }

  /** Exactly the traffic a partition takes away from its pods when nothing else selects them. */
  predicate Blocked(s: PolicySpec, f: Flow, inside: CidrReading) {
    && Selects(s.sourceLabels, f.pod)
    && Covers(s.direction, f.egress)
    && (s.destCidr != "" && f.egress ==>
          !(f.peer.address.V4? && !inside(s.destCidr, f.peer.address.bits)
            && (s.port == 0 || (f.protocol == TCP && f.port == s.port))))
  }

  lemma PartitionBlocksExactly(others: set<Policy>, s: PolicySpec, f: Flow, inside: CidrReading)
    requires CoversAll(inside)
    requires forall p <- others :: !Isolates(p, f)
    ensures Allowed(others + ToSet(DriverPolicies(s)), f, inside) <==> !Blocked(s, f, inside)
  {
    var i := Build(s.(name := IngressName(s.runName), direction := Ingress));
    var e := Build(s.(name := EgressName(s.runName), direction := Egress));
    var mine := ToSet(DriverPolicies(s));
    assert forall p <- mine :: p == i || p == e;
    assert i in mine <==> Covers(s.direction, false) by { assert i.types != e.types; }
    assert e in mine <==> Covers(s.direction, true) by { assert i.types != e.types; }
    assert !Permits(i, f, inside);
    assert Isolates(e, f) ==> f.egress;
    assert Isolates(i, f) ==> !f.egress;
    if f.egress && s.destCidr != "" && Selects(s.sourceLabels, f.pod) {
      var r, block := e.egress[0], e.egress[0].peers[0];
      assert e.egress == [r] && r.peers == [block] && block.except == [s.destCidr];
      assert PeerMatches(block, f.peer, inside) <==>
             f.peer.address.V4? && !inside(block.except[0], f.peer.address.bits);
      assert Permits(e, f, inside) <==> RuleMatches(r, f, inside);
    } else {
      assert !Permits(e, f, inside);
    }
  }

  /**
   The reading a user would give a CIDR partition: IPv4 traffic from the pods to the block, on the
   given port if there is one, is lost, and all other IPv4 traffic from them is kept.
   */
  ghost predicate BlocksOnlyTheBlock(s: PolicySpec, pod: Labels, inside: CidrReading) {
    forall ip, protocol, port ::
      var f := Flow(pod, true, Endpoint(map[], V4(ip)), protocol, port);
      Blocked(s, f, inside) <==> inside(s.destCidr, ip) && (s.port == 0 || (protocol == TCP && port == s.port))
  }

  /** That reading is right exactly when the policy carries no port: a port is put on the allow rule. */
  lemma PortReadingHoldsIffNoPort(s: PolicySpec, pod: Labels, inside: CidrReading)
    requires s.destCidr != "" && Covers(s.direction, true) && Selects(s.sourceLabels, pod)
    ensures BlocksOnlyTheBlock(s, pod, inside) <==> s.port == 0
  {
    if s.port != 0 {
      var f := Flow(pod, true, Endpoint(map[], V4(0)), UDP, 0);
      assert Blocked(s, f, inside);
      assert !(inside(s.destCidr, 0) && (s.port == 0 || (f.protocol == TCP && f.port == s.port)));
    }
  }
}
