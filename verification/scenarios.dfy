/**
 * The route generator's test scenarios (confd/pkg/backends/calico/routes_test.go)
 * as lemmas about the engine. The fixture generator runs on node "foobar"
 * with the cluster range 10.0.0.0/16 and the external ranges
 * 104.244.42.129/32 and 172.217.3.0/24, none of them published yet.
 * Go's `net` package is a parameter: the lemmas assume only the parse results
 * the scenarios depend on, and that the local-address rule accepts the
 * fixtures' address with no IP and the IPv4 address 10.96.0.45 but not the
 * IPv6 address fd5f:1234::3.
 */
module Scenarios {
  import opened Wrappers
  import opened Net
  import opened Kube
  import opened RangeIndex
  import opened Resolver
  import opened Ledger
  import opened Engine
  import opened Outcomes

  const NodeName: string := "foobar"

  // ---------------------------------------------------------------------
  // The fixture
  // ---------------------------------------------------------------------

  const FixtureNets: seq<IPNet> := [IPNet(V4Addr(104, 244, 42, 129), 32), IPNet(V4Addr(172, 217, 3, 0), 24)]

  const FixtureRanges: RangeConfig :=
    RangeConfig(["10.0.0.0/16"], ["104.244.42.129/32", "172.217.3.0/24"], FixtureNets, [], [])

  const Svc1: Service := BuildSimpleService().0
  const Svc2: Service := BuildSimpleService2().0
  const Svc3: Service := BuildSimpleService3().0
  const Svc4: Service := BuildSimpleService4().0
  const Ep1: Endpoints := AddEndpointSubset(BuildSimpleService().1, NodeName)
  const Ep2: Endpoints := AddEndpointSubset(BuildSimpleService2().1, NodeName)
  const Ep3: Endpoints := AddEndpointSubset(BuildSimpleService3().1, NodeName)
  const Ep4: Endpoints := AddEndpointSubset(BuildSimpleService4().1, NodeName)

  /** The address `addEndpointSubset` adds: no IP, hosted on this node. */
  const LocalNoIP: EndpointAddress := EndpointAddress("", Some(NodeName))
  const LocalV6: EndpointAddress := EndpointAddress("fd5f:1234::3", Some(NodeName))
  const LocalV4: EndpointAddress := EndpointAddress("10.96.0.45", Some(NodeName))

  /** The parse results of Go's `net` package that the scenarios rely on. */
  predicate FixtureParser(lib: NetLib) {
    lib.parseIP(ExternalIP1) == Some(V4Addr(45, 12, 70, 5))
    && lib.parseIP(ExternalIP2) == Some(V4Addr(172, 217, 3, 5))
    && lib.parseIP(ExternalIP3) == Some(V4Addr(45, 12, 70, 7))
    && lib.parseIP(LoadBalancerIP1) == Some(V4Addr(172, 217, 4, 10))
    && lib.parseCIDR(ExternalIPRange1) == Some(IPNet(V4Addr(45, 12, 0, 0), 16))
    && lib.parseCIDR(ExternalIPRange2) == Some(IPNet(V4Addr(172, 217, 3, 5), 32))
    && lib.parseCIDR("45.12.70.5/32") == Some(IPNet(V4Addr(45, 12, 70, 5), 32))
    && lib.parseCIDR("45.12.70.7/32") == Some(IPNet(V4Addr(45, 12, 70, 7), 32))
    && lib.parseCIDR("172.217.4.10/32") == Some(IPNet(V4Addr(172, 217, 4, 10), 32))
    && lib.parseCIDR("192.168.0.0/16") == Some(IPNet(V4Addr(192, 168, 0, 0), 16))
    && lib.parseCIDR("10.10.1.0/24") == Some(IPNet(V4Addr(10, 10, 1, 0), 24))
    && lib.parseCIDR("invalid") == None
    && lib.parseCIDR("x.y.z.z/12") == None
  }

  /** The three observations of the local-address rule. */
  predicate FixtureRule(usable: AddressRule) {
    usable(Svc1, LocalNoIP) && usable(Svc2, LocalNoIP) && usable(Svc3, LocalNoIP) && usable(Svc4, LocalNoIP)
    && !usable(Svc1, LocalV6) && usable(Svc1, LocalV4)
  }

  predicate FixtureEnv(env: Env) {
    FixtureParser(env.lib) && FixtureRule(env.usable) && env.nodeName == NodeName
  }

  /** The same-family rule is one rule that meets the observations. */
  lemma SameFamilyRuleFits()
    ensures FixtureRule(SameFamilyRule)
  {
    assert ':' in "fd5f:1234::3";
  }

  /** Pow2 at the prefix widths the fixture ranges use. */
  lemma Pow2Values()
    ensures Pow2(0) == 1 && Pow2(8) == 256 && Pow2(16) == 65536
  {
    assert Pow2(8) == 256 by {
      assert Pow2(4) == 16;
    }
    assert Pow2(16) == 65536 by {
      assert Pow2(12) == 4096;
    }
  }

  // ---------------------------------------------------------------------
  // Which fixture addresses each range list admits
  // ---------------------------------------------------------------------

  /** The parsed forms of the range lists the scenarios configure. */
  const Range1Nets: seq<IPNet> := [IPNet(V4Addr(45, 12, 0, 0), 16)]
  const Range2Nets: seq<IPNet> := [IPNet(V4Addr(172, 217, 3, 5), 32)]
  const Single1Nets: seq<IPNet> := [IPNet(V4Addr(45, 12, 70, 5), 32)]
  const Single3Nets: seq<IPNet> := [IPNet(V4Addr(45, 12, 70, 7), 32)]
  const SingleLBNets: seq<IPNet> := [IPNet(V4Addr(172, 217, 4, 10), 32)]

  /** The initial external ranges admit 172.217.3.5 only. */
  lemma FixtureNetsAdmit(lib: NetLib)
    requires FixtureParser(lib)
    ensures !Allowed(lib, FixtureNets, ExternalIP1) && Allowed(lib, FixtureNets, ExternalIP2)
    ensures !Allowed(lib, FixtureNets, ExternalIP3)
  {
    Pow2Values();
    assert Contains(FixtureNets[1], V4Addr(172, 217, 3, 5));
  }

  /** 45.12.0.0/16 admits 45.12.70.5 and 45.12.70.7 but not 172.217.3.5. */
  lemma Range1Admits(lib: NetLib)
    requires FixtureParser(lib)
    ensures Allowed(lib, Range1Nets, ExternalIP1) && !Allowed(lib, Range1Nets, ExternalIP2)
    ensures Allowed(lib, Range1Nets, ExternalIP3)
  {
    Pow2Values();
    assert Contains(Range1Nets[0], V4Addr(45, 12, 70, 5));
    assert Contains(Range1Nets[0], V4Addr(45, 12, 70, 7));
  }

  /** A /32 range admits exactly its own address. */
  lemma SingleRangesAdmit(lib: NetLib)
    requires FixtureParser(lib)
    ensures !Allowed(lib, Range2Nets, ExternalIP1) && Allowed(lib, Range2Nets, ExternalIP2)
    ensures !Allowed(lib, Range2Nets, ExternalIP3)
    ensures Allowed(lib, Single1Nets, ExternalIP1) && !Allowed(lib, Single1Nets, ExternalIP2)
    ensures !Allowed(lib, Single1Nets, ExternalIP3)
    ensures Allowed(lib, Single3Nets, ExternalIP3) && !Allowed(lib, Single3Nets, ExternalIP1)
    ensures !Allowed(lib, Single3Nets, ExternalIP2)
    ensures Allowed(lib, SingleLBNets, LoadBalancerIP1)
  {
    Pow2Values();
    assert Contains(Range2Nets[0], V4Addr(172, 217, 3, 5));
    assert Contains(Single1Nets[0], V4Addr(45, 12, 70, 5));
    assert Contains(Single3Nets[0], V4Addr(45, 12, 70, 7));
    assert Contains(SingleLBNets[0], V4Addr(172, 217, 4, 10));
  }

  // ---------------------------------------------------------------------
  // The route set of each fixture service
  // ---------------------------------------------------------------------

  /** The host routes of a list of addresses, as a set. */
  function HostSet(ips: seq<string>): set<string> {
    RouteSetOf(AddFullIPLengths(ips))
  }

  lemma {:induction false} HostSetConcat(a: seq<string>, b: seq<string>)
    ensures HostSet(a + b) == HostSet(a) + HostSet(b)
  {
    forall r ensures r in HostSet(a + b) <==> r in HostSet(a) + HostSet(b) {
      HostRouteMembership(a + b, r);
      HostRouteMembership(a, r);
      HostRouteMembership(b, r);
      assert forall ip :: ip in a + b <==> ip in a || ip in b;
    }
  }

  lemma HostSetPair(x: string, y: string)
    ensures HostSet([x, y]) == {AddFullIPLength(x), AddFullIPLength(y)}
  {
    assert AddFullIPLengths([x, y]) == [AddFullIPLength(x), AddFullIPLength(y)];
  }

  lemma HostSetOne(x: string)
    ensures HostSet([x]) == {AddFullIPLength(x)}
  {
    assert AddFullIPLengths([x]) == [AddFullIPLength(x)];
  }

  /** The addresses of a two-element list that a range list admits. */
  lemma FilterPair(lib: NetLib, nets: seq<IPNet>, a: string, b: string)
    requires a != "" && b != ""
    ensures FilterAllowed(lib, nets, [a, b])
         == (if Allowed(lib, nets, a) then [a] else []) + (if Allowed(lib, nets, b) then [b] else [])
  {
    assert [a, b][1..] == [b];
    FilterOne(lib, nets, b);
  }

  lemma FilterOne(lib: NetLib, nets: seq<IPNet>, a: string)
    requires a != ""
    ensures FilterAllowed(lib, nets, [a]) == if Allowed(lib, nets, a) then [a] else []
  {
    assert [a][1..] == [];
  }

  /** The host routes of the fixture addresses. */
  lemma FixtureHostRoutes()
    ensures AddFullIPLength("127.0.0.1") == "127.0.0.1/32" && AddFullIPLength("::1") == "::1/128"
    ensures AddFullIPLength(ExternalIP1) == "45.12.70.5/32" && AddFullIPLength(ExternalIP2) == "172.217.3.5/32"
    ensures AddFullIPLength("127.0.0.5") == "127.0.0.5/32" && AddFullIPLength("::5") == "::5/128"
    ensures AddFullIPLength("127.0.0.10") == "127.0.0.10/32" && AddFullIPLength("::a") == "::a/128"
    ensures AddFullIPLength("127.0.0.11") == "127.0.0.11/32" && AddFullIPLength("::b") == "::b/128"
    ensures AddFullIPLength(LoadBalancerIP1) == "172.217.4.10/32" && AddFullIPLength(ExternalIP3) == "45.12.70.7/32"
  {
    assert "127.0.0.1"[3] == '.';
  }

  /** The routes of a qualifying service, spelled out. */
  lemma QualifyingRoutes(env: Env, cfg: RangeConfig, svc: Service, ep: Endpoints)
    requires AdvertiseThisService(env.usable, svc, ep, env.nodeName)
    ensures RouteSetOf(AdvertisedRoutes(env.lib, env.usable, cfg, env.nodeName, svc, ep)) ==
      HostSet(if |cfg.clusterCIDRs| > 0 then svc.spec.clusterIPs else [])
      + HostSet(FilterAllowed(env.lib, cfg.externalIPNets, svc.spec.externalIPs))
      + HostSet(if svc.spec.serviceType == LoadBalancer then FilterAllowed(env.lib, cfg.loadBalancerIPNets, svc.ingress) else [])
  {
    var cluster := if |cfg.clusterCIDRs| > 0 then svc.spec.clusterIPs else [];
    var ext := FilterAllowed(env.lib, cfg.externalIPNets, svc.spec.externalIPs);
    var lb := if svc.spec.serviceType == LoadBalancer then FilterAllowed(env.lib, cfg.loadBalancerIPNets, svc.ingress) else [];
    HostSetConcat(cluster + ext, lb);
    HostSetConcat(cluster, ext);
  }

  /** The host routes of the external addresses a range list admits among two. */
  lemma HostSetOfFiltered(lib: NetLib, nets: seq<IPNet>, a: string, b: string)
    requires a != "" && b != ""
    ensures HostSet(FilterAllowed(lib, nets, [a, b])) ==
      (if Allowed(lib, nets, a) then {AddFullIPLength(a)} else {})
      + (if Allowed(lib, nets, b) then {AddFullIPLength(b)} else {})
  {
    FilterPair(lib, nets, a, b);
    var e1 := if Allowed(lib, nets, a) then [a] else [];
    var e2 := if Allowed(lib, nets, b) then [b] else [];
    HostSetConcat(e1, e2);
    HostSetOne(a);
    HostSetOne(b);
  }

  /** foo/bar with a usable local address: its two cluster routes while cluster
      ranges are configured, and each of its external IPs the external ranges admit. */
  lemma Svc1Routes(env: Env, cfg: RangeConfig, ep: Endpoints)
    requires HasLocalEndpoint(env.usable, Svc1, ep, env.nodeName)
    ensures RouteSetOf(AdvertisedRoutes(env.lib, env.usable, cfg, env.nodeName, Svc1, ep)) ==
      (if |cfg.clusterCIDRs| > 0 then {"127.0.0.1/32", "::1/128"} else {})
      + (if Allowed(env.lib, cfg.externalIPNets, ExternalIP1) then {"45.12.70.5/32"} else {})
      + (if Allowed(env.lib, cfg.externalIPNets, ExternalIP2) then {"172.217.3.5/32"} else {})
  {
    QualifyingRoutes(env, cfg, Svc1, ep);
    HostSetPair("127.0.0.1", "::1");
    HostSetOfFiltered(env.lib, cfg.externalIPNets, ExternalIP1, ExternalIP2);
    FixtureHostRoutes();
  }

  /** foo/rem: like foo/bar with the cluster routes 127.0.0.5/32 and ::5/128. */
  lemma Svc2Routes(env: Env, cfg: RangeConfig, ep: Endpoints)
    requires HasLocalEndpoint(env.usable, Svc2, ep, env.nodeName)
    ensures RouteSetOf(AdvertisedRoutes(env.lib, env.usable, cfg, env.nodeName, Svc2, ep)) ==
      (if |cfg.clusterCIDRs| > 0 then {"127.0.0.5/32", "::5/128"} else {})
      + (if Allowed(env.lib, cfg.externalIPNets, ExternalIP1) then {"45.12.70.5/32"} else {})
      + (if Allowed(env.lib, cfg.externalIPNets, ExternalIP2) then {"172.217.3.5/32"} else {})
  {
    QualifyingRoutes(env, cfg, Svc2, ep);
    HostSetPair("127.0.0.5", "::5");
    HostSetOfFiltered(env.lib, cfg.externalIPNets, ExternalIP1, ExternalIP2);
    FixtureHostRoutes();
  }

  /** foo/lb: its cluster routes, and its ingress route 172.217.4.10/32 inside a load-balancer range. */
  lemma Svc3Routes(env: Env, cfg: RangeConfig, ep: Endpoints)
    requires HasLocalEndpoint(env.usable, Svc3, ep, env.nodeName)
    ensures RouteSetOf(AdvertisedRoutes(env.lib, env.usable, cfg, env.nodeName, Svc3, ep)) ==
      (if |cfg.clusterCIDRs| > 0 then {"127.0.0.10/32", "::a/128"} else {})
      + (if Allowed(env.lib, cfg.loadBalancerIPNets, LoadBalancerIP1) then {"172.217.4.10/32"} else {})
  {
    QualifyingRoutes(env, cfg, Svc3, ep);
    HostSetPair("127.0.0.10", "::a");
    FilterOne(env.lib, cfg.loadBalancerIPNets, LoadBalancerIP1);
    HostSetOne(LoadBalancerIP1);
    FixtureHostRoutes();
  }

  /** foo/ext: its cluster routes, and 45.12.70.7/32 inside an external range. */
  lemma Svc4Routes(env: Env, cfg: RangeConfig, ep: Endpoints)
    requires HasLocalEndpoint(env.usable, Svc4, ep, env.nodeName)
    ensures RouteSetOf(AdvertisedRoutes(env.lib, env.usable, cfg, env.nodeName, Svc4, ep)) ==
      (if |cfg.clusterCIDRs| > 0 then {"127.0.0.11/32", "::b/128"} else {})
      + (if Allowed(env.lib, cfg.externalIPNets, ExternalIP3) then {"45.12.70.7/32"} else {})
  {
    QualifyingRoutes(env, cfg, Svc4, ep);
    HostSetPair("127.0.0.11", "::b");
    FilterOne(env.lib, cfg.externalIPNets, ExternalIP3);
    HostSetOne(ExternalIP3);
    FixtureHostRoutes();
  }
}
