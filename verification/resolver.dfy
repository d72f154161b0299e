/**
 * The service route resolver: from a Service, its Endpoints, the local node
 * name and the current range configuration, the host routes this node
 * advertises for the service. Cluster IPs are advertised while the
 * cluster-IP range list is non-empty, external IPs only inside an external
 * range, and load-balancer ingress IPs only inside a load-balancer range; all
 * of it only for ClusterIP and LoadBalancer services with
 * ExternalTrafficPolicy=Local and an endpoint address on this node.
 */
module Resolver {
  import opened Wrappers
  import opened Net
  import opened Kube
  import opened RangeIndex

  /** Go's test for an IPv6 address text: it contains a colon. */
  predicate IsV6Text(ip: string) {
    ':' in ip
  }

  /** The host route of an address: /128 for IPv6 text, /32 otherwise. */
  function AddFullIPLength(ip: string): string {
    if IsV6Text(ip) then ip + "/128" else ip + "/32"
  }

  function AddFullIPLengths(ips: seq<string>): (r: seq<string>)
    ensures |r| == |ips|
    ensures forall i :: 0 <= i < |ips| ==> r[i] == AddFullIPLength(ips[i])
  {
    if ips == [] then [] else [AddFullIPLength(ips[0])] + AddFullIPLengths(ips[1..])
  }

  /** The addresses of `ips` that fall inside some range of `nets`, in order. */
  function FilterAllowed(lib: NetLib, nets: seq<IPNet>, ips: seq<string>): (r: seq<string>)
    ensures forall x :: x in r <==> x in ips && x != "" && Allowed(lib, nets, x)
  {
    if ips == [] then []
    else
      var rest := FilterAllowed(lib, nets, ips[1..]);
      assert forall x :: x in ips <==> x == ips[0] || x in ips[1..];
      if ips[0] != "" && Allowed(lib, nets, ips[0]) then [ips[0]] + rest else rest
  }

  /**
   * Which endpoint addresses on this node make a service local. Beyond "hosted
   * on this node" the rule is not visible: an address with no IP counts for the
   * IPv4-primary fixtures, an IPv6-only address does not, an IPv4 address does.
   * The engine is therefore parametric in this rule; `SameFamilyRule` is one
   * rule that agrees with all three observations.
   */
  type AddressRule = (Service, EndpointAddress) -> bool

  /** No IP, or an IP of the same family as the service's primary cluster IP. */
  predicate SameFamilyRule(svc: Service, a: EndpointAddress) {
    a.ip == "" || IsV6Text(a.ip) == IsV6Text(svc.spec.clusterIP)
  }

  predicate UsableLocalAddress(usable: AddressRule, svc: Service, a: EndpointAddress, nodeName: string) {
    a.nodeName == Some(nodeName) && usable(svc, a)
  }

  predicate HasLocalEndpoint(usable: AddressRule, svc: Service, ep: Endpoints, nodeName: string) {
    exists i, j :: 0 <= i < |ep.subsets| && 0 <= j < |ep.subsets[i].addresses|
                   && UsableLocalAddress(usable, svc, ep.subsets[i].addresses[j], nodeName)
  }

  predicate AdvertiseThisService(usable: AddressRule, svc: Service, ep: Endpoints, nodeName: string) {
    (svc.spec.serviceType == ClusterIP || svc.spec.serviceType == LoadBalancer)
    && svc.spec.externalTrafficPolicy == Local
    && HasLocalEndpoint(usable, svc, ep, nodeName)
  }

  /** The routes to advertise for the service, in the model's order: cluster
      IPs, then allowed external IPs, then allowed load-balancer ingress IPs.
      Only the set of these routes is used. */
  function AdvertisedRoutes(lib: NetLib, usable: AddressRule, cfg: RangeConfig, nodeName: string, svc: Service, ep: Endpoints): seq<string> {
    if !AdvertiseThisService(usable, svc, ep, nodeName) then []
    else
      var cluster := if |cfg.clusterCIDRs| > 0 then svc.spec.clusterIPs else [];
      var external := FilterAllowed(lib, cfg.externalIPNets, svc.spec.externalIPs);
      var lb := if svc.spec.serviceType == LoadBalancer
                then FilterAllowed(lib, cfg.loadBalancerIPNets, svc.ingress) else [];
      AddFullIPLengths(cluster + external + lb)
  }

  /** The same routes as a set, which is what the route generator stores. */
  function RouteSetOf(routes: seq<string>): set<string> {
    set r | r in routes
  }

  /** A route is among the host routes of `ips` exactly when it is the host route of one of them. */
  lemma HostRouteMembership(ips: seq<string>, r: string)
    ensures r in AddFullIPLengths(ips) <==> exists ip :: ip in ips && r == AddFullIPLength(ip)
  {
    var routes := AddFullIPLengths(ips);
    if r in routes {
      var i :| 0 <= i < |routes| && routes[i] == r;
      assert ips[i] in ips;
    }
    if exists ip :: ip in ips && r == AddFullIPLength(ip) {
      var ip :| ip in ips && r == AddFullIPLength(ip);
      var i :| 0 <= i < |ips| && ips[i] == ip;
      assert routes[i] == r;
    }
  }

  /** Some host route of `ips` is `r`. */
  predicate RouteOfSome(ips: seq<string>, r: string) {
    exists ip :: ip in ips && r == AddFullIPLength(ip)
  }

  /**
   * A route is advertised exactly when the service qualifies and the route is
   * the host route of one of: a cluster IP while the cluster-IP range list is
   * non-empty; an external IP inside an external range; for a LoadBalancer, a
   * non-empty ingress IP inside a load-balancer range.
   */
  lemma AdvertisedRouteMembership(lib: NetLib, usable: AddressRule, cfg: RangeConfig, nodeName: string, svc: Service, ep: Endpoints, r: string)
    ensures r in AdvertisedRoutes(lib, usable, cfg, nodeName, svc, ep) <==>
      AdvertiseThisService(usable, svc, ep, nodeName) &&
      ((|cfg.clusterCIDRs| > 0 && RouteOfSome(svc.spec.clusterIPs, r))
       || RouteOfSome(FilterAllowed(lib, cfg.externalIPNets, svc.spec.externalIPs), r)
       || (svc.spec.serviceType == LoadBalancer && RouteOfSome(FilterAllowed(lib, cfg.loadBalancerIPNets, svc.ingress), r)))
  {
    if AdvertiseThisService(usable, svc, ep, nodeName) {
      var cluster := if |cfg.clusterCIDRs| > 0 then svc.spec.clusterIPs else [];
      var external := FilterAllowed(lib, cfg.externalIPNets, svc.spec.externalIPs);
      var lb := if svc.spec.serviceType == LoadBalancer
                then FilterAllowed(lib, cfg.loadBalancerIPNets, svc.ingress) else [];
      var all := cluster + external + lb;
      HostRouteMembership(all, r);
      assert forall ip :: ip in all <==> ip in cluster || ip in external || ip in lb;
    }
  }

  /** An external address is advertised for a qualifying service exactly when
      it is non-empty, parses and lies inside a configured external range. */
  lemma ExternalIPAdvertisedIffAllowed(lib: NetLib, usable: AddressRule, cfg: RangeConfig, nodeName: string, svc: Service, ep: Endpoints, ip: string)
    requires AdvertiseThisService(usable, svc, ep, nodeName)
    requires ip in svc.spec.externalIPs
    requires ip !in svc.ingress && forall c :: c in svc.spec.clusterIPs ==> c != ip
    ensures AddFullIPLength(ip) in AdvertisedRoutes(lib, usable, cfg, nodeName, svc, ep) <==>
            ip != "" && Allowed(lib, cfg.externalIPNets, ip)
  {
    var r := AddFullIPLength(ip);
    AdvertisedRouteMembership(lib, usable, cfg, nodeName, svc, ep, r);
    AddFullIPLengthInjective();
  }

  /** A host route keeps its address as a prefix and ends in '8' (/128) or '2' (/32). */
  lemma HostRouteShape(a: string)
    ensures |AddFullIPLength(a)| == |a| + (if IsV6Text(a) then 4 else 3)
    ensures AddFullIPLength(a)[..|a|] == a
    ensures AddFullIPLength(a)[|AddFullIPLength(a)| - 1] == (if IsV6Text(a) then '8' else '2')
  {
  }

  /** Distinct addresses have distinct host routes. */
  lemma AddFullIPLengthInjective()
    ensures forall a, b :: AddFullIPLength(a) == AddFullIPLength(b) ==> a == b
  {
    forall a, b | AddFullIPLength(a) == AddFullIPLength(b) ensures a == b {
      HostRouteShape(a);
      HostRouteShape(b);
    }
  }

  /** Every advertised route is a host route: an IPv4 text with /32 or an IPv6 text with /128. */
  lemma AdvertisedRoutesAreHostRoutes(lib: NetLib, usable: AddressRule, cfg: RangeConfig, nodeName: string, svc: Service, ep: Endpoints, r: string)
    requires r in AdvertisedRoutes(lib, usable, cfg, nodeName, svc, ep)
    ensures exists ip :: (r == ip + "/32" && !IsV6Text(ip)) || (r == ip + "/128" && IsV6Text(ip))
  {
    AdvertisedRouteMembership(lib, usable, cfg, nodeName, svc, ep, r);
  }

  /** A host route adds no '-' to its address. */
  lemma HostRouteDashFree(ip: string)
    requires '-' !in ip
    ensures '-' !in AddFullIPLength(ip)
  {
    var r := AddFullIPLength(ip);
    forall i | 0 <= i < |r| ensures r[i] != '-' {
      if i < |ip| {
        assert r[i] == ip[i] && ip[i] in ip;
      }
    }
  }

  /** No address text of the service contains '-' (no IP text does). */
  predicate TextsDashFree(svc: Service) {
    (forall ip :: ip in svc.spec.clusterIPs ==> '-' !in ip)
    && (forall ip :: ip in svc.spec.externalIPs ==> '-' !in ip)
    && (forall ip :: ip in svc.ingress ==> '-' !in ip)
  }

  /** The routes of a service whose address texts have no '-' have none either. */
  lemma AdvertisedRoutesDashFree(lib: NetLib, usable: AddressRule, cfg: RangeConfig, nodeName: string, svc: Service, ep: Endpoints)
    requires TextsDashFree(svc)
    ensures forall r :: r in AdvertisedRoutes(lib, usable, cfg, nodeName, svc, ep) ==> '-' !in r
  {
    forall r | r in AdvertisedRoutes(lib, usable, cfg, nodeName, svc, ep) ensures '-' !in r {
      AdvertisedRouteMembership(lib, usable, cfg, nodeName, svc, ep, r);
      var ip :| (ip in svc.spec.clusterIPs || ip in svc.spec.externalIPs || ip in svc.ingress) && r == AddFullIPLength(ip);
      HostRouteDashFree(ip);
    }
  }

  /** No route is advertised for a service that does not qualify: a type other
      than ClusterIP or LoadBalancer, a Cluster traffic policy, or no usable
      endpoint address on this node. */
  lemma IneligibleServiceHasNoRoutes(lib: NetLib, usable: AddressRule, cfg: RangeConfig, nodeName: string, svc: Service, ep: Endpoints)
    requires svc.spec.serviceType == ExternalName || svc.spec.serviceType == NodePort
          || svc.spec.externalTrafficPolicy == Cluster
          || forall s :: s in ep.subsets ==> forall a :: a in s.addresses ==> !UsableLocalAddress(usable, svc, a, nodeName)
    ensures AdvertisedRoutes(lib, usable, cfg, nodeName, svc, ep) == []
  {
    if HasLocalEndpoint(usable, svc, ep, nodeName) {
      var i, j :| 0 <= i < |ep.subsets| && 0 <= j < |ep.subsets[i].addresses|
                  && UsableLocalAddress(usable, svc, ep.subsets[i].addresses[j], nodeName);
      assert ep.subsets[i] in ep.subsets && ep.subsets[i].addresses[j] in ep.subsets[i].addresses;
    }
  }
}
