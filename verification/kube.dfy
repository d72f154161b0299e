/**
 * The parts of the Kubernetes Service and Endpoints objects that the route
 * generator reads, and the fixtures the route generator's tests build them
 * from (confd/pkg/backends/calico/routes_test.go).
 */
module Kube {
  import opened Wrappers

  datatype ObjectMeta = ObjectMeta(namespace: string, name: string)

  /** The indexer key of an object: "namespace/name". */
  function MetaKey(m: ObjectMeta): string {
    m.namespace + "/" + m.name
  }

  datatype ServiceType = ClusterIP | NodePort | LoadBalancer | ExternalName

  datatype TrafficPolicy = Cluster | Local

  datatype ServiceSpec = ServiceSpec(
    serviceType: ServiceType,
    clusterIP: string,
    clusterIPs: seq<string>,
    externalTrafficPolicy: TrafficPolicy,
    externalIPs: seq<string>,
    loadBalancerIP: string)

  /** `ingress` lists the IPs of `Status.LoadBalancer.Ingress`. */
  datatype Service = Service(meta: ObjectMeta, spec: ServiceSpec, ingress: seq<string>)

  datatype EndpointAddress = EndpointAddress(ip: string, nodeName: Option<string>)

  datatype EndpointSubset = EndpointSubset(addresses: seq<EndpointAddress>)

  datatype Endpoints = Endpoints(meta: ObjectMeta, subsets: seq<EndpointSubset>)

  // ---------------------------------------------------------------------
  // Test fixtures
  // ---------------------------------------------------------------------

  const ExternalIPRange1: string := "45.12.0.0/16"
  const ExternalIP1: string := "45.12.70.5"
  const ExternalIPRange2: string := "172.217.3.5/32"
  const ExternalIP2: string := "172.217.3.5"
  const LoadBalancerIP1: string := "172.217.4.10"
  const ExternalIP3: string := "45.12.70.7"

  /** Appends one subset holding a single address, with no IP, hosted on `nodeName`. */
  function AddEndpointSubset(ep: Endpoints, nodeName: string): (r: Endpoints)
    ensures r.meta == ep.meta && |r.subsets| == |ep.subsets| + 1
    ensures r.subsets[..|ep.subsets|] == ep.subsets
    ensures r.subsets[|ep.subsets|].addresses == [EndpointAddress("", Some(nodeName))]
  {
    ep.(subsets := ep.subsets + [EndpointSubset([EndpointAddress("", Some(nodeName))])])
  }

  function ServiceOf(meta: ObjectMeta, t: ServiceType, clusterIP: string, clusterIPs: seq<string>,
                     externalIPs: seq<string>, lbIP: string, ingress: seq<string>): Service
  {
    Service(meta, ServiceSpec(t, clusterIP, clusterIPs, Local, externalIPs, lbIP), ingress)
  }

  /** foo/bar: ClusterIP 127.0.0.1 and ::1, external IPs 45.12.70.5 and 172.217.3.5. */
  function BuildSimpleService(): (Service, Endpoints) {
    var meta := ObjectMeta("foo", "bar");
    (ServiceOf(meta, ClusterIP, "127.0.0.1", ["127.0.0.1", "::1"], [ExternalIP1, ExternalIP2], "", []),
     Endpoints(meta, []))
  }

  /** foo/rem: ClusterIP 127.0.0.5 and ::5, the same external IPs as foo/bar. */
  function BuildSimpleService2(): (Service, Endpoints) {
    var meta := ObjectMeta("foo", "rem");
    (ServiceOf(meta, ClusterIP, "127.0.0.5", ["127.0.0.5", "::5"], [ExternalIP1, ExternalIP2], "", []),
     Endpoints(meta, []))
  }

  /** foo/lb: a LoadBalancer whose ingress IP is 172.217.4.10. */
  function BuildSimpleService3(): (Service, Endpoints) {
    var meta := ObjectMeta("foo", "lb");
    (ServiceOf(meta, LoadBalancer, "127.0.0.10", ["127.0.0.10", "::a"], [], LoadBalancerIP1, [LoadBalancerIP1]),
     Endpoints(meta, []))
  }

  /** foo/ext: a LoadBalancer with the external IP 45.12.70.7 and no ingress. */
  function BuildSimpleService4(): (Service, Endpoints) {
    var meta := ObjectMeta("foo", "ext");
    (ServiceOf(meta, LoadBalancer, "127.0.0.11", ["127.0.0.11", "::b"], [ExternalIP3], "", []),
     Endpoints(meta, []))
  }

  /** Each fixture pairs a service with endpoints under the same indexer key,
      and the four keys are distinct. */
  lemma FixtureKeys()
    ensures MetaKey(BuildSimpleService().0.meta) == MetaKey(BuildSimpleService().1.meta) == "foo/bar"
    ensures MetaKey(BuildSimpleService2().0.meta) == MetaKey(BuildSimpleService2().1.meta) == "foo/rem"
    ensures MetaKey(BuildSimpleService3().0.meta) == MetaKey(BuildSimpleService3().1.meta) == "foo/lb"
    ensures MetaKey(BuildSimpleService4().0.meta) == MetaKey(BuildSimpleService4().1.meta) == "foo/ext"
  {
  }

  /** The four fixture keys differ in their fifth character. */
  lemma FixtureKeysDiffer()
    ensures "foo/ext" != "foo/bar" && "foo/ext" != "foo/rem" && "foo/ext" != "foo/lb"
    ensures "foo/lb" != "foo/bar" && "foo/lb" != "foo/rem" && "foo/rem" != "foo/bar"
  {
    assert "foo/ext"[4] == 'e' && "foo/bar"[4] == 'b' && "foo/rem"[4] == 'r' && "foo/lb"[4] == 'l';
  }
}
