/**
 * The informer-handler scenarios of confd/pkg/backends/calico/routes_test.go,
 * replayed on the engine from the fixture generator whose indexers hold the
 * four fixture services and their endpoints. Each lemma states what the
 * scenario observes: the cache revision, the recorded route sets, the
 * advertisement counts, and the static-route keys left in the client.
 */
module HandlerScenarios {
  import opened Wrappers
  import opened Kube
  import opened RangeIndex
  import opened Resolver
  import opened Ledger
  import opened Engine
  import opened Outcomes
  import opened Scenarios

  /** The generator once the informer stores hold the four services and their
      endpoints, before any handler has run. */
  function HandlerFixture(): GenState {
    GenState(ClientState(map[], 0, map[], FixtureRanges),
             map["foo/bar" := Svc1, "foo/rem" := Svc2, "foo/lb" := Svc3, "foo/ext" := Svc4],
             map["foo/bar" := Ep1, "foo/rem" := Ep2, "foo/lb" := Ep3, "foo/ext" := Ep4],
             map[], map[])
  }

  /** The facts carried from one handler call to the next: the generator
      invariant, no configured range holding a reference, and every route's
      static-route key owned by the generator. */
  ghost predicate Tracked(g: GenState) {
    GInv(g) && Exact(g) && AdvDashFree(g) && IndexDashFree(g)
    && forall r :: '-' !in r ==> Owned(g, r)
  }

  lemma FixtureTextsDashFree()
    ensures TextsDashFree(Svc1) && TextsDashFree(Svc2) && TextsDashFree(Svc3) && TextsDashFree(Svc4)
  {
    assert '-' !in ExternalIP1 && '-' !in ExternalIP2 && '-' !in ExternalIP3 && '-' !in LoadBalancerIP1;
  }

  lemma FixtureTracked()
    ensures Tracked(HandlerFixture())
  {
    var g := HandlerFixture();
    forall k ensures KeyClaimants(g.adv, k) == {} {
    }
    FixtureTextsDashFree();
  }

  /** Recomputing one service keeps the tracked facts. */
  lemma SetRouteForSvcTracked(env: Env, g: GenState, svc: Option<Service>, ep: Option<Endpoints>)
    requires Tracked(g) && (svc.Some? ==> TextsDashFree(svc.value))
    ensures Tracked(SetRouteForSvc(env, g, svc, ep))
  {
    var h := SetRouteForSvc(env, g, svc, ep);
    SetRouteForSvcPreservesGInv(env, g, svc, ep);
    assert Owned(g, "");
    SetRouteForSvcOwned(env, g, svc, ep, "");
    SetRouteForSvcKeepsIndexes(env, g, svc, ep);
    forall r | '-' !in r ensures Owned(h, r) {
      assert Owned(g, r);
      SetRouteForSvcOwned(env, g, svc, ep, r);
    }
  }

  /** setRouteForSvc writes neither indexer nor the configured ranges. */
  lemma SetRouteForSvcKeepsIndexes(env: Env, g: GenState, svc: Option<Service>, ep: Option<Endpoints>)
    ensures SetRouteForSvc(env, g, svc, ep).svcIndex == g.svcIndex
    ensures SetRouteForSvc(env, g, svc, ep).epIndex == g.epIndex
    ensures SetRouteForSvc(env, g, svc, ep).client.ranges == g.client.ranges
  {
  }

  /** Withdrawing one service keeps the tracked facts. */
  lemma UnsetRouteForSvcTracked(g: GenState, meta: ObjectMeta)
    requires Tracked(g)
    ensures Tracked(UnsetRouteForSvc(g, meta))
  {
    var h := UnsetRouteForSvc(g, meta);
    SetRoutesForKeyPreservesGInv(g, MetaKey(meta), {});
    SetRoutesForKeyDashFree(g, MetaKey(meta), {});
    assert h.svcIndex == g.svcIndex;
    forall r | '-' !in r ensures Owned(h, r) {
      assert Owned(g, r);
      UnsetRouteForSvcOwned(g, meta, r);
    }
  }

  /**
   * What a scenario can read off a tracked generator for one route: its
   * advertisement count is its number of claimants; an advertised route's
   * static-route key holds the route with one programmed reference, and an
   * unadvertised route's key is neither cached nor counted.
   */
  lemma Observe(g: GenState, r: string)
    requires Tracked(g) && '-' !in r
    ensures AdvCount(g, r) == |Claimants(g.svcRoutes, r)|
    ensures AdvCount(g, r) > 0 ==>
      StaticRouteKey(r) in g.client.cache && g.client.cache[StaticRouteKey(r)] == r
      && Count(g.client, StaticRouteKey(r)) == 1
    ensures AdvCount(g, r) == 0 ==>
      StaticRouteKey(r) !in g.client.cache && StaticRouteKey(r) !in g.client.programmed
  {
    assert Owned(g, r);
    OwnedMeaning(g, r);
  }

  lemma ClaimantsOfOne(k: string, s: set<string>, r: string)
    ensures Claimants(map[k := s], r) == if r in s then {k} else {}
  {
  }

  lemma ClaimantsOfTwo(k1: string, s1: set<string>, k2: string, s2: set<string>, r: string)
    requires k1 != k2
    ensures Claimants(map[k1 := s1, k2 := s2], r)
         == (if r in s1 then {k1} else {}) + (if r in s2 then {k2} else {})
  {
  }

  /** Every fixture endpoints object has a usable address on this node. */
  lemma FixtureEndpointsLocal(env: Env)
    requires FixtureEnv(env)
    ensures HasLocalEndpoint(env.usable, Svc1, Ep1, env.nodeName)
    ensures HasLocalEndpoint(env.usable, Svc2, Ep2, env.nodeName)
    ensures HasLocalEndpoint(env.usable, Svc3, Ep3, env.nodeName)
    ensures HasLocalEndpoint(env.usable, Svc4, Ep4, env.nodeName)
  {
    assert Ep1.subsets[0].addresses[0] == LocalNoIP;
    assert Ep2.subsets[0].addresses[0] == LocalNoIP;
    assert Ep3.subsets[0].addresses[0] == LocalNoIP;
    assert Ep4.subsets[0].addresses[0] == LocalNoIP;
  }

  const Svc1Expected: set<string> := {"127.0.0.1/32", "::1/128", "172.217.3.5/32"}
  const Svc2Expected: set<string> := {"127.0.0.5/32", "::5/128", "172.217.3.5/32"}

  /** The route set the resolver gives for `svc` with `ep` under `cfg`. */
  predicate ResolvesAs(env: Env, cfg: RangeConfig, svc: Service, ep: Endpoints, routes: set<string>) {
    RouteSetOf(AdvertisedRoutes(env.lib, env.usable, cfg, env.nodeName, svc, ep)) == routes
  }

  /** Under the fixture ranges foo/bar and foo/rem resolve to their cluster
      routes and 172.217.3.5/32, the one external IP 172.217.3.0/24 admits. */
  predicate FixtureResolution(env: Env) {
    ResolvesAs(env, FixtureRanges, Svc1, Ep1, Svc1Expected) && ResolvesAs(env, FixtureRanges, Svc2, Ep2, Svc2Expected)
  }

  lemma FixtureResolves(env: Env)
    requires FixtureEnv(env)
    ensures FixtureResolution(env)
  {
    BarResolves(env);
    RemResolves(env);
  }

  lemma BarResolves(env: Env)
    requires FixtureEnv(env)
    ensures ResolvesAs(env, FixtureRanges, Svc1, Ep1, Svc1Expected)
  {
    FixtureEndpointsLocal(env);
    FixtureNetsAdmit(env.lib);
    Svc1Routes(env, FixtureRanges, Ep1);
    assert {"127.0.0.1/32", "::1/128"} + {} + {"172.217.3.5/32"} == Svc1Expected;
  }

  lemma RemResolves(env: Env)
    requires FixtureEnv(env)
    ensures ResolvesAs(env, FixtureRanges, Svc2, Ep2, Svc2Expected)
  {
    FixtureEndpointsLocal(env);
    FixtureNetsAdmit(env.lib);
    Svc2Routes(env, FixtureRanges, Ep2);
    assert {"127.0.0.5/32", "::5/128"} + {} + {"172.217.3.5/32"} == Svc2Expected;
  }

  /** The store keys of foo/bar's routes. */
  lemma BarKeys()
    ensures StaticRouteKey("127.0.0.1/32") == "/calico/staticroutes/127.0.0.1-32"
    ensures StaticRouteKey("::1/128") == "/calico/staticroutesv6/::1-128"
    ensures StaticRouteKey("172.217.3.5/32") == "/calico/staticroutes/172.217.3.5-32"
  {
  }

  /** The store keys of foo/rem's own routes. */
  lemma RemKeys()
    ensures StaticRouteKey("127.0.0.5/32") == "/calico/staticroutes/127.0.0.5-32"
    ensures StaticRouteKey("::5/128") == "/calico/staticroutesv6/::5-128"
  {
  }

  // ---------------------------------------------------------------------
  // What the scenarios observe
  // ---------------------------------------------------------------------

  /** Route `r` is advertised `n` times and its key `k` is cached, holding the
      route, with a single programmed reference. */
  predicate Programmed(g: GenState, r: string, k: string, n: nat) {
    AdvCount(g, r) == n && k in g.client.cache && g.client.cache[k] == r && Count(g.client, k) == 1
  }

  /** Route `r` is not advertised and its key `k` is neither cached nor counted. */
  predicate Withdrawn(g: GenState, r: string, k: string) {
    AdvCount(g, r) == 0 && k !in g.client.cache && k !in g.client.programmed
  }

  /** With one service recorded, its routes are programmed once and every other route is withdrawn. */
  lemma ObserveOne(g: GenState, key: string, routes: set<string>, r: string)
    requires Tracked(g) && g.svcRoutes == map[key := routes] && '-' !in r
    ensures r in routes ==> Programmed(g, r, StaticRouteKey(r), 1)
    ensures r !in routes ==> Withdrawn(g, r, StaticRouteKey(r))
  {
    Observe(g, r);
    ClaimantsOfOne(key, routes, r);
  }

  /** With two services recorded, a route is advertised once per service claiming it. */
  lemma ObserveTwo(g: GenState, k1: string, s1: set<string>, k2: string, s2: set<string>, r: string)
    requires Tracked(g) && k1 != k2 && g.svcRoutes == map[k1 := s1, k2 := s2] && '-' !in r
    ensures r in s1 && r in s2 ==> Programmed(g, r, StaticRouteKey(r), 2)
    ensures (r in s1) != (r in s2) ==> Programmed(g, r, StaticRouteKey(r), 1)
    ensures r !in s1 && r !in s2 ==> Withdrawn(g, r, StaticRouteKey(r))
  {
    Observe(g, r);
    ClaimantsOfTwo(k1, s1, k2, s2, r);
  }

  /** With no service recorded, every route is withdrawn. */
  lemma ObserveNone(g: GenState, r: string)
    requires Tracked(g) && g.svcRoutes == map[] && '-' !in r
    ensures Withdrawn(g, r, StaticRouteKey(r))
  {
    Observe(g, r);
    assert Claimants(g.svcRoutes, r) == {};
  }

  // ---------------------------------------------------------------------
  // onSvcAdd and onSvcDelete of one service
  // ---------------------------------------------------------------------

  /** onSvcAdd (or onSvcUpdate) of a service whose endpoints are indexed: the
      service's key gets the resolver's route set, and the revision moves by
      the routes it alone held and drops plus the unclaimed routes it gains. */
  lemma SvcStep(env: Env, g: GenState, svc: Service)
    requires Tracked(g) && TextsDashFree(svc) && MetaKey(svc.meta) in g.epIndex
    ensures var routes := ServiceRoutes(env, g, svc, g.epIndex[MetaKey(svc.meta)]);
      var h := OnSvcAdd(env, g, svc);
      && Tracked(h)
      && h.svcRoutes == Assign(g.svcRoutes, MetaKey(svc.meta), routes)
      && h.client.revision == g.client.revision
           + |Released(g, MetaKey(svc.meta), routes)| + |Fresh(g, MetaKey(svc.meta), routes)|
  {
    var key := MetaKey(svc.meta);
    var routes := ServiceRoutes(env, g, svc, g.epIndex[key]);
    SetRouteForSvcTracked(env, g, Some(svc), None);
    ServiceRoutesDashFree(env, g, svc, g.epIndex[key]);
    SetRoutesForKeyRevisionBySets(g, key, routes);
  }

  /** onEPAdd (or onEPUpdate) of endpoints whose service is indexed. */
  lemma EpStep(env: Env, g: GenState, ep: Endpoints)
    requires Tracked(g) && MetaKey(ep.meta) in g.svcIndex
    ensures var routes := ServiceRoutes(env, g, g.svcIndex[MetaKey(ep.meta)], ep);
      var h := OnEPAdd(env, g, ep);
      && Tracked(h)
      && h.svcRoutes == Assign(g.svcRoutes, MetaKey(ep.meta), routes)
      && h.client.revision == g.client.revision
           + |Released(g, MetaKey(ep.meta), routes)| + |Fresh(g, MetaKey(ep.meta), routes)|
  {
    var key := MetaKey(ep.meta);
    var routes := ServiceRoutes(env, g, g.svcIndex[key], ep);
    SetRouteForSvcTracked(env, g, None, Some(ep));
    ServiceRoutesDashFree(env, g, g.svcIndex[key], ep);
    SetRoutesForKeyRevisionBySets(g, key, routes);
  }

  /** onSvcDelete (or onEPDelete) under `key`: its entry goes, and the revision
      moves by the routes it alone held. */
  lemma DeleteStep(g: GenState, meta: ObjectMeta)
    requires Tracked(g)
    ensures var h := UnsetRouteForSvc(g, meta);
      && Tracked(h)
      && h.svcRoutes == g.svcRoutes - {MetaKey(meta)}
      && h.client.revision == g.client.revision + |Released(g, MetaKey(meta), {})|
  {
    UnsetRouteForSvcTracked(g, meta);
    SetRoutesForKeyRevisionBySets(g, MetaKey(meta), {});
    assert Fresh(g, MetaKey(meta), {}) == {};
  }

  /** The starting point of a scenario: tracked, with no route recorded or advertised. */
  ghost predicate Fresh0(g: GenState) {
    Tracked(g) && g.svcRoutes == map[] && g.adv == map[]
  }

  lemma FixtureFresh()
    ensures Fresh0(HandlerFixture())
  {
    FixtureTracked();
  }

  /** The fixture service under `key`, its endpoints and its route set. */
  ghost predicate Indexed(env: Env, g: GenState, svc: Service, ep: Endpoints, routes: set<string>) {
    TextsDashFree(svc) && MetaKey(svc.meta) in g.epIndex && g.epIndex[MetaKey(svc.meta)] == ep
    && MetaKey(svc.meta) in g.svcIndex && g.svcIndex[MetaKey(svc.meta)] == svc
    && MetaKey(ep.meta) == MetaKey(svc.meta)
    && ServiceRoutes(env, g, svc, ep) == routes
  }

  /** Adding a service on a fresh generator records its route set and takes
      one revision per route. */
  lemma FirstAdd(env: Env, g: GenState, svc: Service, ep: Endpoints, routes: set<string>)
    requires Fresh0(g) && Indexed(env, g, svc, ep, routes)
    ensures Tracked(OnSvcAdd(env, g, svc))
    ensures OnSvcAdd(env, g, svc).svcRoutes == Assign(map[], MetaKey(svc.meta), routes)
    ensures OnSvcAdd(env, g, svc).client.revision == g.client.revision + |routes|
    ensures forall r :: r in routes ==> '-' !in r
  {
    SvcStep(env, g, svc);
    assert Released(g, MetaKey(svc.meta), routes) == {};
    assert Fresh(g, MetaKey(svc.meta), routes) == routes;
    ServiceRoutesDashFree(env, g, svc, ep);
  }

  /** With one service recorded, each of its routes is programmed once. */
  lemma SoleServiceProgrammed(g: GenState, key: string, routes: set<string>)
    requires Tracked(g) && g.svcRoutes == Assign(map[], key, routes) && forall r :: r in routes ==> '-' !in r
    ensures forall r :: r in routes ==> Programmed(g, r, StaticRouteKey(r), 1)
    ensures routes != {} ==> forall r :: '-' !in r && r !in routes ==> Withdrawn(g, r, StaticRouteKey(r))
  {
    forall r | r in routes ensures Programmed(g, r, StaticRouteKey(r), 1) {
      ObserveOne(g, key, routes, r);
    }
    if routes != {} {
      forall r | '-' !in r && r !in routes ensures Withdrawn(g, r, StaticRouteKey(r)) {
        ObserveOne(g, key, routes, r);
      }
    }
  }

  /** Deleting the one recorded service takes one revision per route it held. */
  lemma DeleteSoleService(g: GenState, meta: ObjectMeta, routes: set<string>)
    requires Tracked(g) && g.svcRoutes == Assign(map[], MetaKey(meta), routes)
    requires forall r :: r in routes ==> '-' !in r
    ensures Tracked(UnsetRouteForSvc(g, meta))
    ensures UnsetRouteForSvc(g, meta).svcRoutes == map[]
    ensures UnsetRouteForSvc(g, meta).client.revision == g.client.revision + |routes|
  {
    DeleteStep(g, meta);
    if routes != {} {
      forall r | r in routes ensures AdvCount(g, r) == 1 {
        ObserveOne(g, MetaKey(meta), routes, r);
      }
      assert Released(g, MetaKey(meta), {}) == routes;
    } else {
      assert Released(g, MetaKey(meta), {}) == {};
    }
  }

  /** With no service recorded, every route is withdrawn. */
  lemma NoServiceWithdrawn(g: GenState)
    requires Tracked(g) && g.svcRoutes == map[]
    ensures forall r :: '-' !in r ==> Withdrawn(g, r, StaticRouteKey(r))
  {
    forall r | '-' !in r ensures Withdrawn(g, r, StaticRouteKey(r)) {
      ObserveNone(g, r);
    }
  }

  /** What adding and then deleting `svc` leaves, as observed after each call. */
  predicate AddDeleteOutcome(env: Env, g: GenState, svc: Service, routes: set<string>) {
    var g1 := OnSvcAdd(env, g, svc);
    var g2 := OnSvcDelete(g1, svc);
    && g1.client.revision == g.client.revision + |routes|
    && g1.svcRoutes == Assign(map[], MetaKey(svc.meta), routes)
    && (forall r :: r in routes ==> Programmed(g1, r, StaticRouteKey(r), 1))
    && g2.client.revision == g.client.revision + 2 * |routes|
    && g2.svcRoutes == map[]
    && (forall r :: r in routes ==> Withdrawn(g2, r, StaticRouteKey(r)))
  }

  /**
   * Adding a service on a fresh generator programs each of its routes once,
   * one revision per route; deleting it again withdraws every one of them,
   * one revision per route, and drops the service's entry.
   */
  lemma AddThenDelete(env: Env, g: GenState, svc: Service, ep: Endpoints, routes: set<string>)
    requires Fresh0(g) && Indexed(env, g, svc, ep, routes)
    ensures AddDeleteOutcome(env, g, svc, routes)
  {
    var g1 := OnSvcAdd(env, g, svc);
    FirstAdd(env, g, svc, ep, routes);
    SoleServiceProgrammed(g1, MetaKey(svc.meta), routes);
    DeleteSoleService(g1, svc.meta, routes);
    NoServiceWithdrawn(OnSvcDelete(g1, svc));
  }

  /** The scenario's starting point: the fixture is fresh and foo/bar resolves
      to its expected routes. */
  lemma BarStartsFresh(env: Env)
    requires FixtureEnv(env)
    ensures Fresh0(HandlerFixture()) && Indexed(env, HandlerFixture(), Svc1, Ep1, Svc1Expected)
  {
    var g := HandlerFixture();
    assert Fresh0(g) by { FixtureFresh(); }
    assert TextsDashFree(Svc1) by { FixtureTextsDashFree(); }
    assert MetaKey(Svc1.meta) == "foo/bar" && MetaKey(Ep1.meta) == "foo/bar" by { FixtureKeys(); }
    FixtureKeysDiffer();
    assert ServiceRoutes(env, g, Svc1, Ep1) == Svc1Expected by { BarResolves(env); }
  }

  lemma RemIndexed(env: Env)
    requires FixtureEnv(env)
    ensures Indexed(env, HandlerFixture(), Svc2, Ep2, Svc2Expected)
  {
    var g := HandlerFixture();
    assert TextsDashFree(Svc2) by { FixtureTextsDashFree(); }
    assert MetaKey(Svc2.meta) == "foo/rem" && MetaKey(Ep2.meta) == "foo/rem" by { FixtureKeys(); }
    FixtureKeysDiffer();
    assert ServiceRoutes(env, g, Svc2, Ep2) == Svc2Expected by { RemResolves(env); }
  }

  /**
   * onSvcAdd of foo/bar takes three revisions and programs its three routes
   * once each under their store keys; onSvcDelete takes three more, drops
   * the service's entry and withdraws all three keys.
   */
  lemma SvcAddThenDelete(env: Env)
    requires FixtureEnv(env)
    ensures var g := OnSvcAdd(env, HandlerFixture(), Svc1);
      && g.client.revision == HandlerFixture().client.revision + 3
      && "foo/bar" in g.svcRoutes && g.svcRoutes["foo/bar"] == Svc1Expected
      && Programmed(g, "127.0.0.1/32", "/calico/staticroutes/127.0.0.1-32", 1)
      && Programmed(g, "::1/128", "/calico/staticroutesv6/::1-128", 1)
      && Programmed(g, "172.217.3.5/32", "/calico/staticroutes/172.217.3.5-32", 1)
    ensures var g := OnSvcDelete(OnSvcAdd(env, HandlerFixture(), Svc1), Svc1);
      && g.client.revision == HandlerFixture().client.revision + 6
      && "foo/bar" !in g.svcRoutes
      && Withdrawn(g, "127.0.0.1/32", "/calico/staticroutes/127.0.0.1-32")
      && Withdrawn(g, "::1/128", "/calico/staticroutesv6/::1-128")
      && Withdrawn(g, "172.217.3.5/32", "/calico/staticroutes/172.217.3.5-32")
  {
    assert AddDeleteOutcome(env, HandlerFixture(), Svc1, Svc1Expected) by {
      BarStartsFresh(env);
      AddThenDelete(env, HandlerFixture(), Svc1, Ep1, Svc1Expected);
    }
    BarAddThenDelete(env, HandlerFixture());
  }

  lemma BarAddThenDelete(env: Env, g: GenState)
    requires AddDeleteOutcome(env, g, Svc1, Svc1Expected)
    ensures var g1 := OnSvcAdd(env, g, Svc1);
      && g1.client.revision == g.client.revision + 3
      && "foo/bar" in g1.svcRoutes && g1.svcRoutes["foo/bar"] == Svc1Expected
      && Programmed(g1, "127.0.0.1/32", "/calico/staticroutes/127.0.0.1-32", 1)
      && Programmed(g1, "::1/128", "/calico/staticroutesv6/::1-128", 1)
      && Programmed(g1, "172.217.3.5/32", "/calico/staticroutes/172.217.3.5-32", 1)
    ensures var g2 := OnSvcDelete(OnSvcAdd(env, g, Svc1), Svc1);
      && g2.client.revision == g.client.revision + 6
      && "foo/bar" !in g2.svcRoutes
      && Withdrawn(g2, "127.0.0.1/32", "/calico/staticroutes/127.0.0.1-32")
      && Withdrawn(g2, "::1/128", "/calico/staticroutesv6/::1-128")
      && Withdrawn(g2, "172.217.3.5/32", "/calico/staticroutes/172.217.3.5-32")
  {
    var g1 := OnSvcAdd(env, g, Svc1);
    var g2 := OnSvcDelete(g1, Svc1);
    ExpectedSizes();
    FixtureKeys();
    BarProgrammed(g1, 1);
    BarWithdrawn(g2);
  }

  /** The sizes of the expected route sets and of their differences. */
  lemma ExpectedSizes()
    ensures |Svc1Expected| == 3 && |Svc2Expected| == 3
    ensures Svc2Expected - Svc1Expected == {"127.0.0.5/32", "::5/128"}
    ensures Svc1Expected - Svc2Expected == {"127.0.0.1/32", "::1/128"}
    ensures |Svc2Expected - Svc1Expected| == 2
  {
  }

  /** foo/bar's routes, each programmed `n` times, read under their literal keys. */
  lemma BarProgrammed(g: GenState, n: nat)
    requires forall r :: r in Svc1Expected ==> Programmed(g, r, StaticRouteKey(r), n)
    ensures Programmed(g, "127.0.0.1/32", "/calico/staticroutes/127.0.0.1-32", n)
    ensures Programmed(g, "::1/128", "/calico/staticroutesv6/::1-128", n)
    ensures Programmed(g, "172.217.3.5/32", "/calico/staticroutes/172.217.3.5-32", n)
  {
    BarKeys();
  }

  /** foo/bar's routes, each withdrawn, read under their literal keys. */
  lemma BarWithdrawn(g: GenState)
    requires forall r :: r in Svc1Expected ==> Withdrawn(g, r, StaticRouteKey(r))
    ensures Withdrawn(g, "127.0.0.1/32", "/calico/staticroutes/127.0.0.1-32")
    ensures Withdrawn(g, "::1/128", "/calico/staticroutesv6/::1-128")
    ensures Withdrawn(g, "172.217.3.5/32", "/calico/staticroutes/172.217.3.5-32")
  {
    BarKeys();
  }

  // ---------------------------------------------------------------------
  // Two services sharing a route
  // ---------------------------------------------------------------------

  /** With one service recorded, a route's advertisement count is one if that service claims it, zero otherwise. */
  lemma SoleServiceCounts(g: GenState, k1: string, s1: set<string>)
    requires Tracked(g) && g.svcRoutes == map[k1 := s1]
    ensures forall r :: '-' !in r ==> AdvCount(g, r) == if r in s1 then 1 else 0
  {
    forall r | '-' !in r ensures AdvCount(g, r) == if r in s1 then 1 else 0 {
      ObserveOne(g, k1, s1, r);
    }
  }

  /** With two services recorded, a route's advertisement count is its number of claimants among them. */
  lemma TwoServicesCounts(g: GenState, k1: string, s1: set<string>, k2: string, s2: set<string>)
    requires Tracked(g) && k1 != k2 && g.svcRoutes == map[k1 := s1, k2 := s2]
    ensures forall r :: '-' !in r ==> AdvCount(g, r) == (if r in s1 then 1 else 0) + (if r in s2 then 1 else 0)
  {
    forall r | '-' !in r ensures AdvCount(g, r) == (if r in s1 then 1 else 0) + (if r in s2 then 1 else 0) {
      ObserveTwo(g, k1, s1, k2, s2, r);
    }
  }

  /** The fresh routes of a second service are those the first does not claim. */
  lemma SecondFresh(g: GenState, k1: string, s1: set<string>, k2: string, s2: set<string>)
    requires Tracked(g) && g.svcRoutes == map[k1 := s1] && k1 != k2
    requires forall r :: r in s2 ==> '-' !in r
    ensures Released(g, k2, s2) == {} && Fresh(g, k2, s2) == s2 - s1
  {
    SoleServiceCounts(g, k1, s1);
  }

  /** A second service added beside a first one: its key gets its routes, and
      the revision moves once per route the first service does not share. */
  lemma SecondAdd(env: Env, g: GenState, k1: string, s1: set<string>, svc: Service, ep: Endpoints, s2: set<string>)
    requires Tracked(g) && s1 != {} && g.svcRoutes == map[k1 := s1]
    requires Indexed(env, g, svc, ep, s2) && MetaKey(svc.meta) != k1 && s2 != {}
    ensures Tracked(OnSvcAdd(env, g, svc))
    ensures OnSvcAdd(env, g, svc).svcRoutes == map[k1 := s1, MetaKey(svc.meta) := s2]
    ensures OnSvcAdd(env, g, svc).client.revision == g.client.revision + |s2 - s1|
    ensures forall r :: r in s2 ==> '-' !in r
  {
    SvcStep(env, g, svc);
    ServiceRoutesDashFree(env, g, svc, ep);
    SecondFresh(g, k1, s1, MetaKey(svc.meta), s2);
  }

  /** With two services recorded, a route they share is advertised twice and
      each other route once, and each is programmed with one reference. */
  lemma TwoServicesProgrammed(g: GenState, k1: string, s1: set<string>, k2: string, s2: set<string>)
    requires Tracked(g) && k1 != k2 && g.svcRoutes == map[k1 := s1, k2 := s2]
    requires forall r :: r in s1 + s2 ==> '-' !in r
    ensures forall r :: r in s1 && r in s2 ==> Programmed(g, r, StaticRouteKey(r), 2)
    ensures forall r :: r in s1 - s2 ==> Programmed(g, r, StaticRouteKey(r), 1)
    ensures forall r :: r in s2 - s1 ==> Programmed(g, r, StaticRouteKey(r), 1)
  {
    forall r | r in s1 && r in s2 ensures Programmed(g, r, StaticRouteKey(r), 2) {
      ObserveTwo(g, k1, s1, k2, s2, r);
    }
    forall r | r in s1 - s2 ensures Programmed(g, r, StaticRouteKey(r), 1) {
      ObserveTwo(g, k1, s1, k2, s2, r);
    }
    forall r | r in s2 - s1 ensures Programmed(g, r, StaticRouteKey(r), 1) {
      ObserveTwo(g, k1, s1, k2, s2, r);
    }
  }

  /** The routes the second of two services alone claims are released by its deletion. */
  lemma SecondReleased(g: GenState, k1: string, s1: set<string>, k2: string, s2: set<string>)
    requires Tracked(g) && k1 != k2 && g.svcRoutes == map[k1 := s1, k2 := s2]
    requires forall r :: r in s2 ==> '-' !in r
    ensures Released(g, k2, {}) == s2 - s1
  {
    TwoServicesCounts(g, k1, s1, k2, s2);
  }

  /** Deleting the second service withdraws the routes it did not share. */
  lemma DeleteSecond(g: GenState, k1: string, s1: set<string>, meta: ObjectMeta, s2: set<string>)
    requires Tracked(g) && k1 != MetaKey(meta) && s1 != {} && g.svcRoutes == map[k1 := s1, MetaKey(meta) := s2]
    requires forall r :: r in s1 + s2 ==> '-' !in r
    ensures Tracked(UnsetRouteForSvc(g, meta))
    ensures UnsetRouteForSvc(g, meta).svcRoutes == map[k1 := s1]
    ensures UnsetRouteForSvc(g, meta).client.revision == g.client.revision + |s2 - s1|
  {
    var k2 := MetaKey(meta);
    assert Released(g, k2, {}) == s2 - s1 by {
      SecondReleased(g, k1, s1, k2, s2);
    }
    DropSecondKey(k1, s1, k2, s2);
    DeleteStep(g, meta);
  }

  lemma DropSecondKey<V>(k1: string, v1: V, k2: string, v2: V)
    requires k1 != k2
    ensures map[k1 := v1, k2 := v2] - {k2} == map[k1 := v1]
  {
    assert (map[k1 := v1, k2 := v2] - {k2}).Keys == {k1};
  }

  /** What adding two services and deleting them in reverse order leaves. */
  predicate TwoServicesOutcome(env: Env, g: GenState, svc1: Service, s1: set<string>, svc2: Service, s2: set<string>) {
    var g2 := OnSvcAdd(env, OnSvcAdd(env, g, svc1), svc2);
    var g3 := OnSvcDelete(g2, svc2);
    var g4 := OnSvcDelete(g3, svc1);
    && g2.client.revision == g.client.revision + |s1| + |s2 - s1|
    && g2.svcRoutes == map[MetaKey(svc1.meta) := s1, MetaKey(svc2.meta) := s2]
    && (forall r :: r in s1 && r in s2 ==> Programmed(g2, r, StaticRouteKey(r), 2))
    && (forall r :: r in s1 - s2 ==> Programmed(g2, r, StaticRouteKey(r), 1))
    && (forall r :: r in s2 - s1 ==> Programmed(g2, r, StaticRouteKey(r), 1))
    && g3.client.revision == g2.client.revision + |s2 - s1|
    && g3.svcRoutes == map[MetaKey(svc1.meta) := s1]
    && (forall r :: r in s1 ==> Programmed(g3, r, StaticRouteKey(r), 1))
    && (forall r :: r in s2 - s1 ==> Withdrawn(g3, r, StaticRouteKey(r)))
    && g4.client.revision == g3.client.revision + |s1|
    && g4.svcRoutes == map[]
    && (forall r :: r in s1 + s2 ==> Withdrawn(g4, r, StaticRouteKey(r)))
  }

  /**
   * Two services advertising a common route: the shared route is counted
   * twice but programmed once; deleting one service keeps it, deleting the
   * other withdraws it.
   */
  lemma TwoServicesShareRoute(env: Env, g: GenState, svc1: Service, ep1: Endpoints, s1: set<string>,
                              svc2: Service, ep2: Endpoints, s2: set<string>)
    requires Fresh0(g) && Indexed(env, g, svc1, ep1, s1) && Indexed(env, g, svc2, ep2, s2)
    requires MetaKey(svc1.meta) != MetaKey(svc2.meta) && s1 != {} && s2 != {}
    ensures TwoServicesOutcome(env, g, svc1, s1, svc2, s2)
  {
    var k1, k2 := MetaKey(svc1.meta), MetaKey(svc2.meta);
    var g1 := OnSvcAdd(env, g, svc1);
    FirstAdd(env, g, svc1, ep1, s1);
    SetRouteForSvcKeepsIndexes(env, g, Some(svc1), None);
    assert Indexed(env, g1, svc2, ep2, s2);
    var g2 := OnSvcAdd(env, g1, svc2);
    SecondAdd(env, g1, k1, s1, svc2, ep2, s2);
    TwoServicesProgrammed(g2, k1, s1, k2, s2);
    var g3 := OnSvcDelete(g2, svc2);
    DeleteSecond(g2, k1, s1, svc2.meta, s2);
    SoleServiceProgrammed(g3, k1, s1);
    var g4 := OnSvcDelete(g3, svc1);
    DeleteSoleService(g3, svc1.meta, s1);
    NoServiceWithdrawn(g4);
  }

  /**
   * foo/bar and foo/rem share 172.217.3.5/32. Adding both takes five
   * revisions: the shared route is advertised twice but programmed once.
   * Deleting foo/rem takes two more and keeps the shared route; deleting
   * foo/bar takes three more and withdraws everything.
   */
  lemma SharedRouteScenario(env: Env)
    requires FixtureEnv(env)
    ensures var g := OnSvcAdd(env, OnSvcAdd(env, HandlerFixture(), Svc1), Svc2);
      && g.client.revision == HandlerFixture().client.revision + 5
      && "foo/bar" in g.svcRoutes && g.svcRoutes["foo/bar"] == Svc1Expected
      && "foo/rem" in g.svcRoutes && g.svcRoutes["foo/rem"] == Svc2Expected
      && Programmed(g, "127.0.0.1/32", "/calico/staticroutes/127.0.0.1-32", 1)
      && Programmed(g, "::1/128", "/calico/staticroutesv6/::1-128", 1)
      && Programmed(g, "127.0.0.5/32", "/calico/staticroutes/127.0.0.5-32", 1)
      && Programmed(g, "::5/128", "/calico/staticroutesv6/::5-128", 1)
      && Programmed(g, "172.217.3.5/32", "/calico/staticroutes/172.217.3.5-32", 2)
    ensures var g := OnSvcDelete(OnSvcAdd(env, OnSvcAdd(env, HandlerFixture(), Svc1), Svc2), Svc2);
      && g.client.revision == HandlerFixture().client.revision + 7
      && "foo/rem" !in g.svcRoutes
      && "foo/bar" in g.svcRoutes && g.svcRoutes["foo/bar"] == Svc1Expected
      && Programmed(g, "127.0.0.1/32", "/calico/staticroutes/127.0.0.1-32", 1)
      && Programmed(g, "::1/128", "/calico/staticroutesv6/::1-128", 1)
      && Programmed(g, "172.217.3.5/32", "/calico/staticroutes/172.217.3.5-32", 1)
      && Withdrawn(g, "127.0.0.5/32", "/calico/staticroutes/127.0.0.5-32")
      && Withdrawn(g, "::5/128", "/calico/staticroutesv6/::5-128")
    ensures var g := OnSvcDelete(OnSvcDelete(OnSvcAdd(env, OnSvcAdd(env, HandlerFixture(), Svc1), Svc2), Svc2), Svc1);
      && g.client.revision == HandlerFixture().client.revision + 10
      && g.svcRoutes == map[]
      && Withdrawn(g, "127.0.0.1/32", "/calico/staticroutes/127.0.0.1-32")
      && Withdrawn(g, "::1/128", "/calico/staticroutesv6/::1-128")
      && Withdrawn(g, "172.217.3.5/32", "/calico/staticroutes/172.217.3.5-32")
      && Withdrawn(g, "127.0.0.5/32", "/calico/staticroutes/127.0.0.5-32")
      && Withdrawn(g, "::5/128", "/calico/staticroutesv6/::5-128")
  {
    assert TwoServicesOutcome(env, HandlerFixture(), Svc1, Svc1Expected, Svc2, Svc2Expected) by {
      BarStartsFresh(env);
      RemIndexed(env);
      FixtureKeys();
      TwoServicesShareRoute(env, HandlerFixture(), Svc1, Ep1, Svc1Expected, Svc2, Ep2, Svc2Expected);
    }
    SharedRouteAdded(env, HandlerFixture());
    SharedRouteRemDeleted(env, HandlerFixture());
    SharedRouteBothDeleted(env, HandlerFixture());
  }

  lemma SharedRouteAdded(env: Env, g: GenState)
    requires TwoServicesOutcome(env, g, Svc1, Svc1Expected, Svc2, Svc2Expected)
    ensures var g2 := OnSvcAdd(env, OnSvcAdd(env, g, Svc1), Svc2);
      && g2.client.revision == g.client.revision + 5
      && "foo/bar" in g2.svcRoutes && g2.svcRoutes["foo/bar"] == Svc1Expected
      && "foo/rem" in g2.svcRoutes && g2.svcRoutes["foo/rem"] == Svc2Expected
      && Programmed(g2, "127.0.0.1/32", "/calico/staticroutes/127.0.0.1-32", 1)
      && Programmed(g2, "::1/128", "/calico/staticroutesv6/::1-128", 1)
      && Programmed(g2, "127.0.0.5/32", "/calico/staticroutes/127.0.0.5-32", 1)
      && Programmed(g2, "::5/128", "/calico/staticroutesv6/::5-128", 1)
      && Programmed(g2, "172.217.3.5/32", "/calico/staticroutes/172.217.3.5-32", 2)
  {
    var g2 := OnSvcAdd(env, OnSvcAdd(env, g, Svc1), Svc2);
    ExpectedSizes();
    FixtureKeys();
    SharedCounted(g2);
    BarOnlyProgrammed(g2);
    RemProgrammed(g2);
  }

  lemma SharedRouteRemDeleted(env: Env, g: GenState)
    requires TwoServicesOutcome(env, g, Svc1, Svc1Expected, Svc2, Svc2Expected)
    ensures var g3 := OnSvcDelete(OnSvcAdd(env, OnSvcAdd(env, g, Svc1), Svc2), Svc2);
      && g3.client.revision == g.client.revision + 7
      && "foo/rem" !in g3.svcRoutes
      && "foo/bar" in g3.svcRoutes && g3.svcRoutes["foo/bar"] == Svc1Expected
      && Programmed(g3, "127.0.0.1/32", "/calico/staticroutes/127.0.0.1-32", 1)
      && Programmed(g3, "::1/128", "/calico/staticroutesv6/::1-128", 1)
      && Programmed(g3, "172.217.3.5/32", "/calico/staticroutes/172.217.3.5-32", 1)
      && Withdrawn(g3, "127.0.0.5/32", "/calico/staticroutes/127.0.0.5-32")
      && Withdrawn(g3, "::5/128", "/calico/staticroutesv6/::5-128")
  {
    var g3 := OnSvcDelete(OnSvcAdd(env, OnSvcAdd(env, g, Svc1), Svc2), Svc2);
    ExpectedSizes();
    FixtureKeys();
    BarProgrammed(g3, 1);
    RemWithdrawn(g3);
  }

  lemma SharedRouteBothDeleted(env: Env, g: GenState)
    requires TwoServicesOutcome(env, g, Svc1, Svc1Expected, Svc2, Svc2Expected)
    ensures var g4 := OnSvcDelete(OnSvcDelete(OnSvcAdd(env, OnSvcAdd(env, g, Svc1), Svc2), Svc2), Svc1);
      && g4.client.revision == g.client.revision + 10
      && g4.svcRoutes == map[]
      && Withdrawn(g4, "127.0.0.1/32", "/calico/staticroutes/127.0.0.1-32")
      && Withdrawn(g4, "::1/128", "/calico/staticroutesv6/::1-128")
      && Withdrawn(g4, "172.217.3.5/32", "/calico/staticroutes/172.217.3.5-32")
      && Withdrawn(g4, "127.0.0.5/32", "/calico/staticroutes/127.0.0.5-32")
      && Withdrawn(g4, "::5/128", "/calico/staticroutesv6/::5-128")
  {
    var g4 := OnSvcDelete(OnSvcDelete(OnSvcAdd(env, OnSvcAdd(env, g, Svc1), Svc2), Svc2), Svc1);
    ExpectedSizes();
    AllWithdrawn(g4);
  }

  /** The route both services claim, counted twice. */
  lemma SharedCounted(g: GenState)
    requires forall r :: r in Svc1Expected && r in Svc2Expected ==> Programmed(g, r, StaticRouteKey(r), 2)
    ensures Programmed(g, "172.217.3.5/32", "/calico/staticroutes/172.217.3.5-32", 2)
  {
    BarKeys();
  }

  /** The routes only foo/bar claims, programmed once. */
  lemma BarOnlyProgrammed(g: GenState)
    requires forall r :: r in Svc1Expected - Svc2Expected ==> Programmed(g, r, StaticRouteKey(r), 1)
    ensures Programmed(g, "127.0.0.1/32", "/calico/staticroutes/127.0.0.1-32", 1)
    ensures Programmed(g, "::1/128", "/calico/staticroutesv6/::1-128", 1)
  {
    BarKeys();
  }

  /** The routes only foo/rem claims, programmed once. */
  lemma RemProgrammed(g: GenState)
    requires forall r :: r in Svc2Expected - Svc1Expected ==> Programmed(g, r, StaticRouteKey(r), 1)
    ensures Programmed(g, "127.0.0.5/32", "/calico/staticroutes/127.0.0.5-32", 1)
    ensures Programmed(g, "::5/128", "/calico/staticroutesv6/::5-128", 1)
  {
    RemKeys();
  }

  /** The routes only foo/rem claimed, withdrawn. */
  lemma RemWithdrawn(g: GenState)
    requires forall r :: r in Svc2Expected - Svc1Expected ==> Withdrawn(g, r, StaticRouteKey(r))
    ensures Withdrawn(g, "127.0.0.5/32", "/calico/staticroutes/127.0.0.5-32")
    ensures Withdrawn(g, "::5/128", "/calico/staticroutesv6/::5-128")
  {
    RemKeys();
  }

  /** Every route of either service, withdrawn. */
  lemma AllWithdrawn(g: GenState)
    requires forall r :: r in Svc1Expected + Svc2Expected ==> Withdrawn(g, r, StaticRouteKey(r))
    ensures Withdrawn(g, "127.0.0.1/32", "/calico/staticroutes/127.0.0.1-32")
    ensures Withdrawn(g, "::1/128", "/calico/staticroutesv6/::1-128")
    ensures Withdrawn(g, "172.217.3.5/32", "/calico/staticroutes/172.217.3.5-32")
    ensures Withdrawn(g, "127.0.0.5/32", "/calico/staticroutes/127.0.0.5-32")
    ensures Withdrawn(g, "::5/128", "/calico/staticroutesv6/::5-128")
  {
    BarKeys();
    RemKeys();
  }
}
