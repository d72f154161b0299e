/**
 * The range configuration held by the publishing client. For each category
 * (cluster IPs, external IPs, load-balancer IPs) it keeps the configured CIDR
 * texts; for the two categories whose addresses are range-checked it also
 * keeps their parsed form. A configuration update replaces one category's
 * list wholesale, and only when every entry of the new list parses.
 */
module RangeIndex {
  import opened Wrappers
  import opened Net

  datatype Category = ClusterIPs | ExternalIPs | LoadBalancerIPs

  datatype RangeConfig = RangeConfig(
    clusterCIDRs: seq<string>,
    externalIPs: seq<string>,
    externalIPNets: seq<IPNet>,
    loadBalancerIPs: seq<string>,
    loadBalancerIPNets: seq<IPNet>)

  /** The configured CIDR texts of one category. */
  function Entries(cfg: RangeConfig, cat: Category): seq<string> {
    match cat
    case ClusterIPs => cfg.clusterCIDRs
    case ExternalIPs => cfg.externalIPs
    case LoadBalancerIPs => cfg.loadBalancerIPs
  }

  /** The configuration with one category's list replaced by `texts`, parsed as `nets`. */
  function WithEntries(cfg: RangeConfig, cat: Category, texts: seq<string>, nets: seq<IPNet>): (r: RangeConfig)
    ensures Entries(r, cat) == texts
    ensures forall other :: other != cat ==> Entries(r, other) == Entries(cfg, other)
    ensures cat == ExternalIPs ==> r.externalIPNets == nets && r.loadBalancerIPNets == cfg.loadBalancerIPNets
    ensures cat == LoadBalancerIPs ==> r.loadBalancerIPNets == nets && r.externalIPNets == cfg.externalIPNets
    ensures cat == ClusterIPs ==> r.externalIPNets == cfg.externalIPNets && r.loadBalancerIPNets == cfg.loadBalancerIPNets
  {
    match cat
    case ClusterIPs => cfg.(clusterCIDRs := texts)
    case ExternalIPs => cfg.(externalIPs := texts, externalIPNets := nets)
    case LoadBalancerIPs => cfg.(loadBalancerIPs := texts, loadBalancerIPNets := nets)
  }

  /** Every entry parses; on success the parsed ranges, in order. */
  function ParseAll(lib: NetLib, xs: seq<string>): (r: Option<seq<IPNet>>)
    ensures r.Some? <==> forall i :: 0 <= i < |xs| ==> lib.parseCIDR(xs[i]).Some?
    ensures r.Some? ==> |r.value| == |xs|
    ensures r.Some? ==> forall i :: 0 <= i < |xs| ==> lib.parseCIDR(xs[i]) == Some(r.value[i])
  {
    if xs == [] then Some([])
    else
      match lib.parseCIDR(xs[0])
      case None => None
      case Some(n) =>
        match ParseAll(lib, xs[1..])
        case None => None
        case Some(rest) => Some([n] + rest)
  }

  /** The range text parses and holds a single address (/32 or /128). */
  predicate IsSingleHostText(lib: NetLib, cidr: string) {
    match lib.parseCIDR(cidr)
    case None => false
    case Some(n) => SingleHost(n)
  }
}
