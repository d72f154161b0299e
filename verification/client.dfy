/**
 * The publishing client as an object: its cache, revision counter,
 * programmed-route reference counts and range lists are fields that its
 * methods update in place. Each method is proved to leave the object in the
 * state the corresponding ledger function describes.
 */
module ClientStore {
  import opened Wrappers
  import opened Strings
  import opened Net
  import opened RangeIndex
  import opened Ledger

  class Client {
    /** Go's `net` package, foreign to the model. */
    const lib: NetLib
    var cache: map<string, string>
    var cacheRevision: nat
    var programmedRouteRefCount: map<string, nat>
    var clusterCIDRs: seq<string>
    var externalIPs: seq<string>
    var externalIPNets: seq<IPNet>
    var loadBalancerIPs: seq<string>
    var loadBalancerIPNets: seq<IPNet>

    /** The object's state as a ledger value. */
    function Model(): ClientState
      reads this
    {
      ClientState(cache, cacheRevision, programmedRouteRefCount,
                  RangeConfig(clusterCIDRs, externalIPs, externalIPNets, loadBalancerIPs, loadBalancerIPNets))
    }

    /** A client with an empty cache and the given, unpublished, range lists. */
    constructor (lib: NetLib, ranges: RangeConfig)
      ensures this.lib == lib
      ensures Model() == ClientState(map[], 0, map[], ranges)
    {
      this.lib := lib;
      cache := map[];
      cacheRevision := 0;
      programmedRouteRefCount := map[];
      clusterCIDRs := ranges.clusterCIDRs;
      externalIPs := ranges.externalIPs;
      externalIPNets := ranges.externalIPNets;
      loadBalancerIPs := ranges.loadBalancerIPs;
      loadBalancerIPNets := ranges.loadBalancerIPNets;
    }

    /** updateCache for a write: bump the revision only if the value changes. */
    method PutKey(k: string, v: string)
      modifies this
      ensures Model() == Ledger.PutKey(old(Model()), k, v)
    {
      if !(k in cache && cache[k] == v) {
        cache := cache[k := v];
        cacheRevision := cacheRevision + 1;
      }
    }

    /** updateCache for a delete: bump the revision only if the key was present. */
    method DeleteKey(k: string)
      modifies this
      ensures Model() == Ledger.DeleteKey(old(Model()), k)
    {
      if k in cache {
        cache := cache - {k};
        cacheRevision := cacheRevision + 1;
      }
    }

    /** Take a reference on a static-route key, writing it on the first one. */
    method SetKey(k: string, v: string)
      modifies this
      ensures Model() == Ledger.SetKey(old(Model()), k, v)
    {
      if k in programmedRouteRefCount && programmedRouteRefCount[k] > 0 {
        programmedRouteRefCount := programmedRouteRefCount[k := programmedRouteRefCount[k] + 1];
      } else {
        programmedRouteRefCount := programmedRouteRefCount[k := 1];
        PutKey(k, v);
      }
    }

    /** Drop a reference on a static-route key, deleting key and count on the last one. */
    method UnsetKey(k: string)
      modifies this
      ensures Model() == Ledger.UnsetKey(old(Model()), k)
    {
      if k in programmedRouteRefCount && programmedRouteRefCount[k] > 0 {
        if programmedRouteRefCount[k] == 1 {
          programmedRouteRefCount := programmedRouteRefCount - {k};
          DeleteKey(k);
        } else {
          programmedRouteRefCount := programmedRouteRefCount[k := programmedRouteRefCount[k] - 1];
        }
      }
    }

    /** Parse every entry; `None` as soon as one fails. */
    method ParseRanges(xs: seq<string>) returns (r: Option<seq<IPNet>>)
      ensures r == ParseAll(lib, xs)
    {
      var nets: seq<IPNet> := [];
      var i := 0;
      while i < |xs|
        invariant 0 <= i <= |xs| && |nets| == i
        invariant forall j :: 0 <= j < i ==> lib.parseCIDR(xs[j]) == Some(nets[j])
      {
        var p := lib.parseCIDR(xs[i]);
        if p.None? {
          return None;
        }
        nets := nets + [p.value];
        i := i + 1;
      }
      assert ParseAll(lib, xs).value == nets;
      r := Some(nets);
    }

    /** Withdraw the given configured ranges, in order. */
    method UnpublishRanges(xs: seq<string>)
      modifies this
      ensures Model() == UnpublishAll(old(Model()), lib, xs)
    {
      ghost var m0 := Model();
      var i := 0;
      while i < |xs|
        invariant 0 <= i <= |xs|
        invariant Model() == UnpublishAll(m0, lib, xs[..i])
      {
        var x := xs[i];
        DeleteKey(RejectKey(x));
        if !IsSingleHostText(lib, x) {
          UnsetKey(StaticRouteKey(x));
        }
        assert xs[..i + 1][..i] == xs[..i];
        i := i + 1;
      }
      assert xs[..i] == xs;
    }

    /** Publish the given configured ranges, in order. */
    method PublishRanges(xs: seq<string>)
      modifies this
      ensures Model() == PublishAll(old(Model()), lib, xs)
    {
      ghost var m0 := Model();
      var i := 0;
      while i < |xs|
        invariant 0 <= i <= |xs|
        invariant Model() == PublishAll(m0, lib, xs[..i])
      {
        var x := xs[i];
        if !IsSingleHostText(lib, x) {
          SetKey(StaticRouteKey(x), x);
        }
        PutKey(RejectKey(x), x);
        assert xs[..i + 1][..i] == xs[..i];
        i := i + 1;
      }
      assert xs[..i] == xs;
    }

    /** The shared body of the three range-list hooks. */
    method UpdateRanges(cat: Category, next: seq<string>)
      modifies this
      ensures Model() == Ledger.UpdateRanges(old(Model()), lib, cat, next)
    {
      var parsed := ParseRanges(next);
      if parsed.None? {
        return;
      }
      ghost var m0 := Model();
      var cur := Entries(Model().ranges, cat);
      UnpublishRanges(Dropped(cur, next));
      PublishRanges(Added(cur, next));
      ghost var m1 := Model();
      assert m1 == ApplyDiff(m0, lib, cur, next);
      match cat
      case ClusterIPs => clusterCIDRs := next;
      case ExternalIPs => externalIPs := next; externalIPNets := parsed.value;
      case LoadBalancerIPs => loadBalancerIPs := next; loadBalancerIPNets := parsed.value;
      assert Model() == m1.(ranges := WithEntries(m0.ranges, cat, next, parsed.value));
    }

    method OnClusterIPsUpdate(next: seq<string>)
      modifies this
      ensures Model() == Ledger.UpdateRanges(old(Model()), lib, ClusterIPs, next)
    {
      UpdateRanges(ClusterIPs, next);
    }

    method OnExternalIPsUpdate(next: seq<string>)
      modifies this
      ensures Model() == Ledger.UpdateRanges(old(Model()), lib, ExternalIPs, next)
    {
      UpdateRanges(ExternalIPs, next);
    }

    method OnLoadBalancerIPsUpdate(next: seq<string>)
      modifies this
      ensures Model() == Ledger.UpdateRanges(old(Model()), lib, LoadBalancerIPs, next)
    {
      UpdateRanges(LoadBalancerIPs, next);
    }

    /** getIgnoredInterfacesKVPair: publish the comma-joined interface list. */
    method SetIgnoredInterfaces(ifaces: seq<string>)
      modifies this
      ensures Model() == Ledger.SetIgnoredInterfaces(old(Model()), ifaces)
    {
      if ifaces == [] {
        DeleteKey(IgnoredInterfacesKey);
      } else {
        PutKey(IgnoredInterfacesKey, Join(ifaces, ","));
      }
    }
  }
}
