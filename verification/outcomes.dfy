/**
 * What the route generator leaves in the client for one route: whether its
 * static-route key is present, what it holds and how many references it
 * has. These per-route facts survive the generator's own updates and any
 * range update that does not touch the key, so they also hold once range
 * configuration has published routes of its own.
 */
module Outcomes {
  import opened Wrappers
  import opened Strings
  import opened Kube
  import opened RangeIndex
  import opened Resolver
  import opened Ledger
  import opened Engine

  /**
   * Route `r`'s static-route key is referenced by the routes that claim it and
   * by nothing else, and holds `r` while `r` is advertised.
   */
  ghost predicate Owned(g: GenState, r: string) {
    Count(g.client, StaticRouteKey(r)) == |KeyClaimants(g.adv, StaticRouteKey(r))|
    && (r in g.adv ==> StaticRouteKey(r) in g.client.cache && g.client.cache[StaticRouteKey(r)] == r)
  }

  /** An owned route is in the client exactly while it is advertised: once,
      holding the route, with one reference; otherwise neither its cache entry
      nor its count entry is left behind. */
  lemma OwnedMeaning(g: GenState, r: string)
    requires LInv(g) && AdvDashFree(g) && '-' !in r && Owned(g, r)
    ensures r in g.adv ==> StaticRouteKey(r) in g.client.cache && g.client.cache[StaticRouteKey(r)] == r
    ensures r in g.adv ==> Count(g.client, StaticRouteKey(r)) == 1
    ensures r !in g.adv ==> StaticRouteKey(r) !in g.client.cache && StaticRouteKey(r) !in g.client.programmed
  {
    KeyClaimantsOfDashFree(g, r);
    StaticRouteKeyIsStatic(r);
  }

  /** With no configured range holding a reference, an unadvertised route is owned. */
  lemma ExactOwnsUnadvertised(g: GenState, r: string)
    requires Exact(g) && r !in g.adv
    ensures Owned(g, r)
  {
  }

  lemma AdvertiseRouteOwned(g: GenState, x: string, r: string)
    requires LInv(g) && AdvDashFree(g) && '-' !in x && '-' !in r && Owned(g, r)
    ensures Owned(AdvertiseRoute(g, x), r)
  {
    var h := AdvertiseRoute(g, x);
    var k := StaticRouteKey(r);
    KeyClaimantsOfDashFree(g, r);
    if AdvCount(g, x) == 0 {
      KeyClaimantsAdd(g.adv, x, 1, k);
      if x != r {
        StaticRouteKeysDistinct(x, r);
        assert Count(h.client, k) == Count(g.client, k);
      }
    } else {
      KeyClaimantsUpdate(g.adv, x, g.adv[x] + 1, k);
    }
  }

  lemma WithdrawRouteOwned(g: GenState, x: string, r: string)
    requires LInv(g) && AdvDashFree(g) && '-' !in x && '-' !in r && Owned(g, r)
    ensures Owned(WithdrawRoute(g, x), r)
  {
    var h := WithdrawRoute(g, x);
    var k := StaticRouteKey(r);
    KeyClaimantsOfDashFree(g, r);
    if AdvCount(g, x) == 1 {
      KeyClaimantsRemove(g.adv, x, k);
      if x != r {
        StaticRouteKeysDistinct(x, r);
        assert Count(h.client, k) == Count(g.client, k);
      }
    } else if AdvCount(g, x) > 1 {
      KeyClaimantsUpdate(g.adv, x, g.adv[x] - 1, k);
    }
  }

  lemma {:induction false} AdvertiseAllOwned(g: GenState, rs: seq<string>, r: string)
    requires LInv(g) && AdvDashFree(g) && DashFree(rs) && '-' !in r && Owned(g, r)
    ensures Owned(AdvertiseAll(g, rs), r)
    decreases |rs|
  {
    if rs != [] {
      var init := rs[..|rs| - 1];
      assert DashFree(init) by {
        forall i | 0 <= i < |init| ensures '-' !in init[i] {
          assert init[i] == rs[i];
        }
      }
      AdvertiseAllOwned(g, init, r);
      AdvertiseAllPreservesLInv(g, init);
      AdvertiseAllDashFree(g, init);
      AdvertiseRouteOwned(AdvertiseAll(g, init), rs[|rs| - 1], r);
    }
  }

  lemma {:induction false} WithdrawAllOwned(g: GenState, rs: seq<string>, r: string)
    requires LInv(g) && AdvDashFree(g) && '-' !in r && Owned(g, r)
    requires forall i :: 0 <= i < |rs| ==> rs[i] in g.adv
    ensures Owned(WithdrawAll(g, rs), r)
    decreases |rs|
  {
    if rs != [] {
      var init := rs[..|rs| - 1];
      WithdrawAllOwned(g, init, r);
      WithdrawAllPreservesLInv(g, init);
      WithdrawAllDashFree(g, init);
      assert rs[|rs| - 1] in g.adv;
      WithdrawRouteOwned(WithdrawAll(g, init), rs[|rs| - 1], r);
    }
  }

  /** Setting a service's routes keeps every route owned and no route with a dash advertised. */
  lemma SetRoutesForKeyOwned(g: GenState, key: string, routes: set<string>, r: string)
    requires GInv(g) && AdvDashFree(g) && (forall x :: x in routes ==> '-' !in x)
    requires '-' !in r && Owned(g, r)
    ensures Owned(SetRoutesForKey(g, key, routes), r)
  {
    var cur := CurrentRoutes(g, key);
    var w, a := SortedSeq(cur - routes), SortedSeq(routes - cur);
    forall i | 0 <= i < |w| ensures w[i] in g.adv {
      assert w[i] in w;
      assert key in Claimants(g.svcRoutes, w[i]);
    }
    forall i | 0 <= i < |a| ensures '-' !in a[i] {
      assert a[i] in a;
    }
    WithdrawAllOwned(g, w, r);
    WithdrawAllPreservesLInv(g, w);
    WithdrawAllDashFree(g, w);
    AdvertiseAllOwned(WithdrawAll(g, w), a, r);
  }

  lemma SetRoutesForKeyDashFree(g: GenState, key: string, routes: set<string>)
    requires GInv(g) && AdvDashFree(g) && (forall x :: x in routes ==> '-' !in x)
    ensures AdvDashFree(SetRoutesForKey(g, key, routes))
  {
    var cur := CurrentRoutes(g, key);
    var w, a := SortedSeq(cur - routes), SortedSeq(routes - cur);
    forall i | 0 <= i < |a| ensures '-' !in a[i] {
      assert a[i] in a;
    }
    WithdrawAllDashFree(g, w);
    AdvertiseAllDashFree(WithdrawAll(g, w), a);
  }

  // ---------------------------------------------------------------------
  // Revision accounting by sets
  // ---------------------------------------------------------------------

  /** The routes a service drops that it alone claimed. */
  function Released(g: GenState, key: string, routes: set<string>): set<string> {
    set r | r in CurrentRoutes(g, key) - routes && AdvCount(g, r) == 1
  }

  /** The routes a service gains that nobody claimed. */
  function Fresh(g: GenState, key: string, routes: set<string>): set<string> {
    set r | r in routes - CurrentRoutes(g, key) && AdvCount(g, r) == 0
  }

  /** With static routes owned by the generator alone, the revision moves by
      one per released route and one per fresh route. */
  lemma SetRoutesForKeyRevisionBySets(g: GenState, key: string, routes: set<string>)
    requires GInv(g) && Exact(g) && AdvDashFree(g) && (forall r :: r in routes ==> '-' !in r)
    ensures SetRoutesForKey(g, key, routes).client.revision ==
            g.client.revision + |Released(g, key, routes)| + |Fresh(g, key, routes)|
  {
    var cur := CurrentRoutes(g, key);
    SetRoutesForKeyRevision(g, key, routes);
    var w, a := SortedSeq(cur - routes), SortedSeq(routes - cur);
    assert LastClaimed(g, w) == Released(g, key, routes) by {
      forall r ensures r in LastClaimed(g, w) <==> r in Released(g, key, routes) {
        assert r in w <==> r in cur - routes;
      }
    }
    assert Unclaimed(g, a) == Fresh(g, key, routes) by {
      forall r ensures r in Unclaimed(g, a) <==> r in Fresh(g, key, routes) {
        assert r in a <==> r in routes - cur;
      }
    }
  }

  // ---------------------------------------------------------------------
  // The generator writes static-route keys only
  // ---------------------------------------------------------------------

  /** The cache entries outside the static-route key space. */
  function NonStaticEntries(c: ClientState): map<string, string> {
    map k | k in c.cache && !IsStaticKey(k) :: c.cache[k]
  }

  lemma {:induction false} AdvertiseAllNonStatic(g: GenState, rs: seq<string>)
    ensures NonStaticEntries(AdvertiseAll(g, rs).client) == NonStaticEntries(g.client)
    decreases |rs|
  {
    if rs != [] {
      AdvertiseAllNonStatic(g, rs[..|rs| - 1]);
      StaticRouteKeyIsStatic(rs[|rs| - 1]);
    }
  }

  lemma {:induction false} WithdrawAllNonStatic(g: GenState, rs: seq<string>)
    ensures NonStaticEntries(WithdrawAll(g, rs).client) == NonStaticEntries(g.client)
    decreases |rs|
  {
    if rs != [] {
      WithdrawAllNonStatic(g, rs[..|rs| - 1]);
      StaticRouteKeyIsStatic(rs[|rs| - 1]);
    }
  }

  lemma SetRoutesForKeyNonStatic(g: GenState, key: string, routes: set<string>)
    ensures NonStaticEntries(SetRoutesForKey(g, key, routes).client) == NonStaticEntries(g.client)
  {
    var cur := CurrentRoutes(g, key);
    var w, a := SortedSeq(cur - routes), SortedSeq(routes - cur);
    WithdrawAllNonStatic(g, w);
    AdvertiseAllNonStatic(WithdrawAll(g, w), a);
  }

  /** With nothing advertised and no configured range holding a reference, the
      cache holds no static route at all. */
  lemma NothingAdvertisedNoStaticRoutes(g: GenState)
    requires LInv(g) && Exact(g) && g.adv == map[]
    ensures g.client.cache == NonStaticEntries(g.client)
  {
    forall k | k in g.client.cache ensures !IsStaticKey(k) {
      assert KeyClaimants(g.adv, k) == {};
    }
  }

  // ---------------------------------------------------------------------
  // What resyncKnownRoutes leaves behind
  // ---------------------------------------------------------------------

  /** Every indexed object sits under its own `namespace/name` key. */
  predicate IndexKeyed(m: map<string, Service>) {
    forall k :: k in m ==> MetaKey(m[k].meta) == k
  }

  /** No two services of the list share a key. */
  predicate KeysDistinct(svcs: seq<Service>) {
    forall i, j :: 0 <= i < j < |svcs| ==> MetaKey(svcs[i].meta) != MetaKey(svcs[j].meta)
  }

  /** The key is the key of some service of the list that has endpoints. */
  predicate Recomputed(g: GenState, svcs: seq<Service>, k: string) {
    k in g.epIndex && exists i :: 0 <= i < |svcs| && MetaKey(svcs[i].meta) == k
  }

  /** Recomputing one service moves only its own key; indexers and ranges stay. */
  lemma SetRouteForSvcFrame(env: Env, g: GenState, svc: Service)
    ensures SetRouteForSvc(env, g, Some(svc), None).svcIndex == g.svcIndex
    ensures SetRouteForSvc(env, g, Some(svc), None).epIndex == g.epIndex
    ensures SetRouteForSvc(env, g, Some(svc), None).client.ranges == g.client.ranges
    ensures MetaKey(svc.meta) in g.epIndex ==>
      CurrentRoutes(SetRouteForSvc(env, g, Some(svc), None), MetaKey(svc.meta)) ==
      ServiceRoutes(env, g, svc, g.epIndex[MetaKey(svc.meta)])
    ensures forall k :: k != MetaKey(svc.meta) || MetaKey(svc.meta) !in g.epIndex ==>
      CurrentRoutes(SetRouteForSvc(env, g, Some(svc), None), k) == CurrentRoutes(g, k)
    ensures NonStaticEntries(SetRouteForSvc(env, g, Some(svc), None).client) == NonStaticEntries(g.client)
  {
    var key := MetaKey(svc.meta);
    if key in g.epIndex {
      SetRoutesForKeyNonStatic(g, key, ServiceRoutes(env, g, svc, g.epIndex[key]));
    }
  }

  /**
   * Recomputing a list of services with distinct keys leaves each of them with
   * the resolver's route set under the ranges it started from, and every other
   * key as it was.
   */
  lemma {:induction false} ResyncServicesRoutes(env: Env, g: GenState, svcs: seq<Service>)
    requires KeysDistinct(svcs)
    ensures ResyncServices(env, g, svcs).svcIndex == g.svcIndex
    ensures ResyncServices(env, g, svcs).epIndex == g.epIndex
    ensures ResyncServices(env, g, svcs).client.ranges == g.client.ranges
    ensures forall i :: 0 <= i < |svcs| && MetaKey(svcs[i].meta) in g.epIndex ==>
      CurrentRoutes(ResyncServices(env, g, svcs), MetaKey(svcs[i].meta)) ==
      ServiceRoutes(env, g, svcs[i], g.epIndex[MetaKey(svcs[i].meta)])
    ensures forall k :: !Recomputed(g, svcs, k) ==>
      CurrentRoutes(ResyncServices(env, g, svcs), k) == CurrentRoutes(g, k)
    ensures NonStaticEntries(ResyncServices(env, g, svcs).client) == NonStaticEntries(g.client)
    decreases |svcs|
  {
    if svcs != [] {
      var init, last := svcs[..|svcs| - 1], svcs[|svcs| - 1];
      assert KeysDistinct(init) by {
        forall i, j | 0 <= i < j < |init| ensures MetaKey(init[i].meta) != MetaKey(init[j].meta) {
          assert init[i] == svcs[i] && init[j] == svcs[j];
        }
      }
      ResyncServicesRoutes(env, g, init);
      ResyncStep(env, g, init, last);
      assert svcs == init + [last];
    }
  }

  /** One more service on the list: the inductive step of `ResyncServicesRoutes`. */
  lemma ResyncStep(env: Env, g: GenState, init: seq<Service>, last: Service)
    requires KeysDistinct(init + [last])
    requires ResyncServices(env, g, init).svcIndex == g.svcIndex
    requires ResyncServices(env, g, init).epIndex == g.epIndex
    requires ResyncServices(env, g, init).client.ranges == g.client.ranges
    requires forall i :: 0 <= i < |init| && MetaKey(init[i].meta) in g.epIndex ==>
      CurrentRoutes(ResyncServices(env, g, init), MetaKey(init[i].meta)) ==
      ServiceRoutes(env, g, init[i], g.epIndex[MetaKey(init[i].meta)])
    requires forall k :: !Recomputed(g, init, k) ==>
      CurrentRoutes(ResyncServices(env, g, init), k) == CurrentRoutes(g, k)
    requires NonStaticEntries(ResyncServices(env, g, init).client) == NonStaticEntries(g.client)
    ensures ResyncServices(env, g, init + [last]).svcIndex == g.svcIndex
    ensures ResyncServices(env, g, init + [last]).epIndex == g.epIndex
    ensures ResyncServices(env, g, init + [last]).client.ranges == g.client.ranges
    ensures forall i :: 0 <= i < |init + [last]| && MetaKey((init + [last])[i].meta) in g.epIndex ==>
      CurrentRoutes(ResyncServices(env, g, init + [last]), MetaKey((init + [last])[i].meta)) ==
      ServiceRoutes(env, g, (init + [last])[i], g.epIndex[MetaKey((init + [last])[i].meta)])
    ensures forall k :: !Recomputed(g, init + [last], k) ==>
      CurrentRoutes(ResyncServices(env, g, init + [last]), k) == CurrentRoutes(g, k)
    ensures NonStaticEntries(ResyncServices(env, g, init + [last]).client) == NonStaticEntries(g.client)
  {
    var svcs := init + [last];
    var h0 := ResyncServices(env, g, init);
    assert svcs[..|svcs| - 1] == init && svcs[|svcs| - 1] == last;
    var h := SetRouteForSvc(env, h0, Some(last), None);
    assert ResyncServices(env, g, svcs) == h;
    SetRouteForSvcFrame(env, h0, last);
    var lk := MetaKey(last.meta);
    assert lk in g.epIndex ==> ServiceRoutes(env, h0, last, g.epIndex[lk]) == ServiceRoutes(env, g, last, g.epIndex[lk]);
    forall i | 0 <= i < |svcs| && MetaKey(svcs[i].meta) in g.epIndex
      ensures CurrentRoutes(h, MetaKey(svcs[i].meta)) == ServiceRoutes(env, g, svcs[i], g.epIndex[MetaKey(svcs[i].meta)])
    {
      if i < |init| {
        assert svcs[i] == init[i];
        assert MetaKey(svcs[i].meta) != lk;
      }
    }
    forall k | !Recomputed(g, svcs, k) ensures CurrentRoutes(h, k) == CurrentRoutes(g, k) {
      forall i | 0 <= i < |init| ensures MetaKey(init[i].meta) != k || k !in g.epIndex {
        assert svcs[i] == init[i];
      }
      assert svcs[|init|] == last;
      assert !Recomputed(g, init, k);
    }
  }

  /**
   * After a resync every indexed service with endpoints has exactly the
   * resolver's route set under the current ranges; a key missing from either
   * indexer keeps what it had.
   */
  lemma ResyncRoutes(env: Env, g: GenState)
    requires IndexKeyed(g.svcIndex)
    ensures forall k :: k in g.svcIndex && k in g.epIndex ==>
      CurrentRoutes(Resync(env, g), k) == ServiceRoutes(env, g, g.svcIndex[k], g.epIndex[k])
    ensures forall k :: !(k in g.svcIndex && k in g.epIndex) ==>
      CurrentRoutes(Resync(env, g), k) == CurrentRoutes(g, k)
    ensures Resync(env, g).svcIndex == g.svcIndex && Resync(env, g).epIndex == g.epIndex
    ensures Resync(env, g).client.ranges == g.client.ranges
    ensures NonStaticEntries(Resync(env, g).client) == NonStaticEntries(g.client)
  {
    var ks := SortedSeq(g.svcIndex.Keys);
    var svcs := IndexedServices(g.svcIndex);
    SortedSeqDistinct(g.svcIndex.Keys);
    forall i | 0 <= i < |ks| ensures ks[i] in g.svcIndex && MetaKey(svcs[i].meta) == ks[i] {
      assert ks[i] in ks;
    }
    assert KeysDistinct(svcs);
    ResyncServicesRoutes(env, g, svcs);
    forall k ensures k in g.svcIndex && k in g.epIndex ==>
                       CurrentRoutes(Resync(env, g), k) == ServiceRoutes(env, g, g.svcIndex[k], g.epIndex[k])
             ensures !(k in g.svcIndex && k in g.epIndex) ==> CurrentRoutes(Resync(env, g), k) == CurrentRoutes(g, k)
    {
      if k in g.svcIndex {
        assert k in ks;
        var i :| 0 <= i < |ks| && ks[i] == k;
        assert svcs[i] == g.svcIndex[k];
      } else {
        forall i | 0 <= i < |svcs| ensures MetaKey(svcs[i].meta) != k {
          assert MetaKey(svcs[i].meta) == ks[i];
        }
      }
    }
  }

  // ---------------------------------------------------------------------
  // Ownership across handlers, resync and range updates
  // ---------------------------------------------------------------------

  /** Every indexed service has address texts without '-'. */
  ghost predicate IndexDashFree(g: GenState) {
    forall k :: k in g.svcIndex ==> TextsDashFree(g.svcIndex[k])
  }

  lemma ServiceRoutesDashFree(env: Env, g: GenState, svc: Service, ep: Endpoints)
    requires TextsDashFree(svc)
    ensures forall x :: x in ServiceRoutes(env, g, svc, ep) ==> '-' !in x
  {
    AdvertisedRoutesDashFree(env.lib, env.usable, g.client.ranges, env.nodeName, svc, ep);
  }

  /** Recomputing one service keeps the generator invariant, keeps advertised
      routes dash-free and keeps route `r` owned. */
  lemma SetRouteForSvcOwned(env: Env, g: GenState, svc: Option<Service>, ep: Option<Endpoints>, r: string)
    requires GInv(g) && AdvDashFree(g) && IndexDashFree(g) && '-' !in r && Owned(g, r)
    requires svc.Some? ==> TextsDashFree(svc.value)
    ensures GInv(SetRouteForSvc(env, g, svc, ep))
    ensures AdvDashFree(SetRouteForSvc(env, g, svc, ep))
    ensures Owned(SetRouteForSvc(env, g, svc, ep), r)
  {
    SetRouteForSvcPreservesGInv(env, g, svc, ep);
    if svc.None? && ep.None? {
    } else if ep.None? {
      var found := GetEndpointsForService(g, svc.value);
      if found.0.Some? {
        var routes := ServiceRoutes(env, g, svc.value, found.0.value);
        ServiceRoutesDashFree(env, g, svc.value, found.0.value);
        SetRoutesForKeyOwned(g, found.1, routes, r);
        SetRoutesForKeyDashFree(g, found.1, routes);
      }
    } else if svc.None? {
      var found := GetServiceForEndpoints(g, ep.value);
      if found.0.Some? {
        var routes := ServiceRoutes(env, g, found.0.value, ep.value);
        ServiceRoutesDashFree(env, g, found.0.value, ep.value);
        SetRoutesForKeyOwned(g, found.1, routes, r);
        SetRoutesForKeyDashFree(g, found.1, routes);
      }
    } else {
      var routes := ServiceRoutes(env, g, svc.value, ep.value);
      ServiceRoutesDashFree(env, g, svc.value, ep.value);
      SetRoutesForKeyOwned(g, MetaKey(svc.value.meta), routes, r);
      SetRoutesForKeyDashFree(g, MetaKey(svc.value.meta), routes);
    }
  }

  /** Withdrawing a service keeps the same three facts. */
  lemma UnsetRouteForSvcOwned(g: GenState, meta: ObjectMeta, r: string)
    requires GInv(g) && AdvDashFree(g) && '-' !in r && Owned(g, r)
    ensures GInv(UnsetRouteForSvc(g, meta))
    ensures AdvDashFree(UnsetRouteForSvc(g, meta))
    ensures Owned(UnsetRouteForSvc(g, meta), r)
  {
    SetRoutesForKeyPreservesGInv(g, MetaKey(meta), {});
    SetRoutesForKeyOwned(g, MetaKey(meta), {}, r);
    SetRoutesForKeyDashFree(g, MetaKey(meta), {});
  }

  lemma {:induction false} ResyncServicesOwned(env: Env, g: GenState, svcs: seq<Service>, r: string)
    requires GInv(g) && AdvDashFree(g) && IndexDashFree(g) && '-' !in r && Owned(g, r)
    requires forall i :: 0 <= i < |svcs| ==> TextsDashFree(svcs[i])
    ensures GInv(ResyncServices(env, g, svcs))
    ensures AdvDashFree(ResyncServices(env, g, svcs))
    ensures IndexDashFree(ResyncServices(env, g, svcs))
    ensures Owned(ResyncServices(env, g, svcs), r)
    decreases |svcs|
  {
    if svcs != [] {
      var init, last := svcs[..|svcs| - 1], svcs[|svcs| - 1];
      assert forall i :: 0 <= i < |init| ==> init[i] == svcs[i];
      ResyncServicesOwned(env, g, init, r);
      SetRouteForSvcOwned(env, ResyncServices(env, g, init), Some(last), None, r);
    }
  }

  /** A resync keeps the generator invariant and keeps route `r` owned. */
  lemma ResyncOwned(env: Env, g: GenState, r: string)
    requires GInv(g) && AdvDashFree(g) && IndexDashFree(g) && '-' !in r && Owned(g, r)
    ensures GInv(Resync(env, g)) && AdvDashFree(Resync(env, g)) && IndexDashFree(Resync(env, g))
    ensures Owned(Resync(env, g), r)
  {
    var ks := SortedSeq(g.svcIndex.Keys);
    var svcs := IndexedServices(g.svcIndex);
    forall i | 0 <= i < |svcs| ensures TextsDashFree(svcs[i]) {
      assert ks[i] in ks;
    }
    ResyncServicesOwned(env, g, svcs, r);
  }

  /**
   * A range update that neither drops nor adds a range claiming route `r`'s
   * static-route key keeps `r` owned; the generator's own state is untouched.
   */
  lemma OnRangesUpdateOwned(env: Env, g: GenState, cat: Category, next: seq<string>, r: string)
    requires Owned(g, r)
    requires StaticHits(env.lib, Dropped(Entries(g.client.ranges, cat), next), StaticRouteKey(r)) == 0
    requires StaticHits(env.lib, Added(Entries(g.client.ranges, cat), next), StaticRouteKey(r)) == 0
    ensures Owned(OnRangesUpdate(env, g, cat, next), r)
  {
    StaticRouteKeyIsStatic(r);
    UpdateRangesKeyFrame(g.client, env.lib, cat, next, StaticRouteKey(r));
  }
}
