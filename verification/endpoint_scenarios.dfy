/**
 * The scenarios of confd/pkg/backends/calico/routes_test.go that go through
 * the endpoints handlers, service updates and the two lookups. A test that
 * mutates an object the informer store also holds is replayed by indexing
 * the mutated object before the handler runs.
 */
module EndpointScenarios {
  import opened Wrappers
  import opened Kube
  import opened RangeIndex
  import opened Resolver
  import opened Ledger
  import opened Engine
  import opened Outcomes
  import opened Scenarios
  import opened HandlerScenarios

  // ---------------------------------------------------------------------
  // The handlers reduce to one another
  // ---------------------------------------------------------------------

  /** With both halves indexed under one key, an endpoints event recomputes
      the service exactly as a service event does. */
  lemma EpAddIsSvcAdd(env: Env, g: GenState, svc: Service, ep: Endpoints, routes: set<string>)
    requires Indexed(env, g, svc, ep, routes)
    ensures OnEPAdd(env, g, ep) == OnSvcAdd(env, g, svc)
    ensures OnEPUpdate(env, g, None, ep) == OnSvcAdd(env, g, svc)
    ensures OnSvcUpdate(env, g, None, svc) == OnSvcAdd(env, g, svc)
  {
  }

  /** A recomputation that finds no route withdraws the service. */
  lemma IneligibleIsUnset(env: Env, g: GenState, svc: Service, ep: Endpoints)
    requires Indexed(env, g, svc, ep, {})
    ensures OnSvcAdd(env, g, svc) == UnsetRouteForSvc(g, svc.meta)
  {
  }

  /** An endpoints delete withdraws the service under the same key. */
  lemma EpDeleteIsSvcDelete(g: GenState, svc: Service, ep: Endpoints)
    requires MetaKey(ep.meta) == MetaKey(svc.meta)
    ensures OnEPDelete(g, ep) == OnSvcDelete(g, svc)
  {
  }

  // ---------------------------------------------------------------------
  // Facts that survive re-indexing
  // ---------------------------------------------------------------------

  /** Two generator states with the same client, route map and counts. */
  predicate SameBookkeeping(h: GenState, g: GenState) {
    h.client == g.client && h.svcRoutes == g.svcRoutes && h.adv == g.adv
  }

  /** The tracked facts depend on the indexers only through the service texts. */
  lemma ReindexTracked(g: GenState, h: GenState)
    requires Tracked(g) && SameBookkeeping(h, g) && IndexDashFree(h)
    ensures Tracked(h)
  {
    assert forall r :: AdvCount(h, r) == AdvCount(g, r);
    assert forall k :: KeyClaimants(h.adv, k) == KeyClaimants(g.adv, k);
    forall r | '-' !in r ensures Owned(h, r) {
      assert Owned(g, r);
    }
  }

  lemma IndexServiceDashFree(g: GenState, svc: Service)
    requires IndexDashFree(g) && TextsDashFree(svc)
    ensures IndexDashFree(IndexService(g, svc))
  {
  }

  /** With no service recorded nothing is advertised, and a cache holding no
      configuration entry is empty. */
  lemma NoServiceEmptyCache(g: GenState)
    requires Tracked(g) && g.svcRoutes == map[] && NonStaticEntries(g.client) == map[]
    ensures g.adv == map[] && g.client.cache == map[]
    ensures forall r :: '-' !in r ==> Withdrawn(g, r, StaticRouteKey(r))
  {
    forall r ensures r !in g.adv {
      assert Claimants(g.svcRoutes, r) == {};
    }
    assert g.adv.Keys == {};
    NothingAdvertisedNoStaticRoutes(g);
    NoServiceWithdrawn(g);
  }

  lemma SetRouteForSvcNonStatic(env: Env, g: GenState, svc: Option<Service>, ep: Option<Endpoints>)
    ensures NonStaticEntries(SetRouteForSvc(env, g, svc, ep).client) == NonStaticEntries(g.client)
  {
    if svc.None? && ep.None? {
    } else if ep.None? {
      var found := GetEndpointsForService(g, svc.value);
      if found.0.Some? {
        SetRoutesForKeyNonStatic(g, found.1, ServiceRoutes(env, g, svc.value, found.0.value));
      }
    } else if svc.None? {
      var found := GetServiceForEndpoints(g, ep.value);
      if found.0.Some? {
        SetRoutesForKeyNonStatic(g, found.1, ServiceRoutes(env, g, found.0.value, ep.value));
      }
    } else {
      SetRoutesForKeyNonStatic(g, MetaKey(svc.value.meta), ServiceRoutes(env, g, svc.value, ep.value));
    }
  }

  // ---------------------------------------------------------------------
  // One service on a generator with no configuration entry in its cache
  // ---------------------------------------------------------------------

  /** The state after recomputing the only service from nothing: one revision
      per route and each route programmed once; no route leaves nothing at all. */
  predicate SoleOutcome(g: GenState, g1: GenState, key: string, routes: set<string>) {
    && g1.client.revision == g.client.revision + |routes|
    && g1.svcRoutes == Assign(map[], key, routes)
    && (forall r :: r in routes ==> Programmed(g1, r, StaticRouteKey(r), 1))
    && (routes == {} ==> g1.svcRoutes == map[] && g1.adv == map[] && g1.client.cache == map[])
  }

  /** Nothing recorded and no configuration entry cached. */
  ghost predicate Clean(g: GenState) {
    Tracked(g) && g.svcRoutes == map[] && NonStaticEntries(g.client) == map[]
  }

  /** Recomputing a service from a clean state records its routes and programs each once. */
  lemma AddFromClean(env: Env, g: GenState, svc: Service, ep: Endpoints, routes: set<string>)
    requires Clean(g) && Indexed(env, g, svc, ep, routes)
    ensures SoleOutcome(g, OnSvcAdd(env, g, svc), MetaKey(svc.meta), routes)
    ensures Tracked(OnSvcAdd(env, g, svc))
    ensures NonStaticEntries(OnSvcAdd(env, g, svc).client) == map[]
    ensures routes == {} ==> Clean(OnSvcAdd(env, g, svc))
    ensures forall r :: r in routes ==> '-' !in r
  {
    var g1 := OnSvcAdd(env, g, svc);
    NoServiceEmptyCache(g);
    FirstAdd(env, g, svc, ep, routes);
    SoleServiceProgrammed(g1, MetaKey(svc.meta), routes);
    SetRouteForSvcNonStatic(env, g, Some(svc), None);
    if routes == {} {
      assert g1.svcRoutes == map[];
      NoServiceEmptyCache(g1);
    }
  }

  /** The sole service, recomputed to no route: its entry goes and every one of
      its routes is withdrawn, one revision each, leaving an empty cache. */
  predicate WithdrawnOutcome(g: GenState, g1: GenState, routes: set<string>) {
    && g1.client.revision == g.client.revision + |routes|
    && g1.svcRoutes == map[] && g1.adv == map[] && g1.client.cache == map[]
    && (forall r :: r in routes ==> Withdrawn(g1, r, StaticRouteKey(r)))
  }

  lemma WithdrawSole(env: Env, g: GenState, svc: Service, ep: Endpoints, routes: set<string>)
    requires Tracked(g) && NonStaticEntries(g.client) == map[]
    requires g.svcRoutes == Assign(map[], MetaKey(svc.meta), routes) && forall r :: r in routes ==> '-' !in r
    requires Indexed(env, g, svc, ep, {})
    ensures WithdrawnOutcome(g, OnSvcAdd(env, g, svc), routes)
    ensures Clean(OnSvcAdd(env, g, svc))
  {
    var g1 := OnSvcAdd(env, g, svc);
    IneligibleIsUnset(env, g, svc, ep);
    DeleteSoleService(g, svc.meta, routes);
    SetRoutesForKeyNonStatic(g, MetaKey(svc.meta), {});
    NoServiceEmptyCache(g1);
  }

  /** A service added and then recomputed (after re-indexing `h`) to no route. */
  predicate CycleOutcome(g: GenState, g1: GenState, g2: GenState, key: string, routes: set<string>) {
    SoleOutcome(g, g1, key, routes) && WithdrawnOutcome(g1, g2, routes)
  }

  /**
   * A service added on a clean generator, then re-indexed (the service or its
   * endpoints replaced) so that it no longer qualifies, and recomputed: its
   * routes are programmed once each, then all withdrawn.
   */
  lemma AddThenIneligible(env: Env, g: GenState, svc: Service, ep: Endpoints, routes: set<string>,
                          h: GenState, svc2: Service, ep2: Endpoints)
    requires Clean(g) && Indexed(env, g, svc, ep, routes)
    requires SameBookkeeping(h, OnSvcAdd(env, g, svc)) && IndexDashFree(h)
    requires Indexed(env, h, svc2, ep2, {}) && MetaKey(svc2.meta) == MetaKey(svc.meta)
    ensures CycleOutcome(g, OnSvcAdd(env, g, svc), OnSvcAdd(env, h, svc2), MetaKey(svc.meta), routes)
    ensures Clean(OnSvcAdd(env, h, svc2))
  {
    var g1 := OnSvcAdd(env, g, svc);
    AddFromClean(env, g, svc, ep, routes);
    ReindexTracked(g1, h);
    WithdrawSole(env, h, svc2, ep2, routes);
  }

  // ---------------------------------------------------------------------
  // The observations under foo/bar's literal keys
  // ---------------------------------------------------------------------

  /** foo/bar added and withdrawn again, read under its literal keys. */
  lemma BarCycle(g: GenState, g1: GenState, g2: GenState)
    requires CycleOutcome(g, g1, g2, "foo/bar", Svc1Expected)
    ensures g1.client.revision == g.client.revision + 3
    ensures "foo/bar" in g1.svcRoutes && g1.svcRoutes["foo/bar"] == Svc1Expected
    ensures Programmed(g1, "127.0.0.1/32", "/calico/staticroutes/127.0.0.1-32", 1)
    ensures Programmed(g1, "::1/128", "/calico/staticroutesv6/::1-128", 1)
    ensures Programmed(g1, "172.217.3.5/32", "/calico/staticroutes/172.217.3.5-32", 1)
    ensures g2.client.revision == g.client.revision + 6
    ensures "foo/bar" !in g2.svcRoutes && g2.client.cache == map[]
    ensures Withdrawn(g2, "127.0.0.1/32", "/calico/staticroutes/127.0.0.1-32")
    ensures Withdrawn(g2, "::1/128", "/calico/staticroutesv6/::1-128")
    ensures Withdrawn(g2, "172.217.3.5/32", "/calico/staticroutes/172.217.3.5-32")
  {
    ExpectedSizes();
    BarProgrammed(g1, 1);
    BarWithdrawn(g2);
  }

  /** foo/bar recorded alone, read under its literal keys. */
  lemma BarSole(g: GenState, g1: GenState)
    requires SoleOutcome(g, g1, "foo/bar", Svc1Expected)
    ensures g1.client.revision == g.client.revision + 3
    ensures "foo/bar" in g1.svcRoutes && g1.svcRoutes["foo/bar"] == Svc1Expected
    ensures Programmed(g1, "127.0.0.1/32", "/calico/staticroutes/127.0.0.1-32", 1)
    ensures Programmed(g1, "::1/128", "/calico/staticroutesv6/::1-128", 1)
    ensures Programmed(g1, "172.217.3.5/32", "/calico/staticroutes/172.217.3.5-32", 1)
  {
    ExpectedSizes();
    BarProgrammed(g1, 1);
  }

  // ---------------------------------------------------------------------
  // Endpoints removed, then back with an IPv6 and then an IPv4 address
  // ---------------------------------------------------------------------

  /** foo/bar's endpoints with no subset, with one IPv6 address, with one IPv4 address. */
  const EpEmpty: Endpoints := Ep1.(subsets := [])
  const EpV6: Endpoints := Ep1.(subsets := [EndpointSubset([LocalV6])])
  const EpV4: Endpoints := Ep1.(subsets := [EndpointSubset([LocalV4])])

  /** The stages of the endpoints scenario, from the state `g`. */
  function Emptied(env: Env, g: GenState): GenState {
    var g1 := OnSvcAdd(env, g, Svc1);
    OnEPAdd(env, IndexEndpoints(g1, EpEmpty), EpEmpty)
  }

  function BackV6(env: Env, g: GenState): GenState {
    var g2 := Emptied(env, g);
    OnEPAdd(env, IndexEndpoints(g2, EpV6), EpV6)
  }

  function BackV4(env: Env, g: GenState): GenState {
    var g3 := BackV6(env, g);
    OnEPAdd(env, IndexEndpoints(g3, EpV4), EpV4)
  }

  /** What the scenario observes after each stage. */
  predicate FlapOutcome(env: Env, g: GenState) {
    && CycleOutcome(g, OnSvcAdd(env, g, Svc1), Emptied(env, g), "foo/bar", Svc1Expected)
    && SoleOutcome(Emptied(env, g), BackV6(env, g), "foo/bar", {})
    && SoleOutcome(BackV6(env, g), BackV4(env, g), "foo/bar", Svc1Expected)
  }

  /** Under the fixture ranges foo/bar resolves to nothing without a usable
      local address and to its expected routes with the IPv4 one. */
  lemma FlapResolves(env: Env, cfg: RangeConfig)
    requires FixtureEnv(env) && cfg == FixtureRanges
    ensures ResolvesAs(env, cfg, Svc1, EpEmpty, {})
    ensures ResolvesAs(env, cfg, Svc1, EpV6, {})
    ensures ResolvesAs(env, cfg, Svc1, EpV4, Svc1Expected)
  {
    IneligibleServiceHasNoRoutes(env.lib, env.usable, cfg, env.nodeName, Svc1, EpEmpty);
    IneligibleServiceHasNoRoutes(env.lib, env.usable, cfg, env.nodeName, Svc1, EpV6);
    assert EpV4.subsets[0].addresses[0] == LocalV4;
    FixtureNetsAdmit(env.lib);
    Svc1Routes(env, cfg, EpV4);
  }

  lemma FlapHolds(env: Env)
    requires FixtureEnv(env)
    ensures FlapOutcome(env, HandlerFixture())
  {
    var g := HandlerFixture();
    BarStartsFresh(env);
    FixtureKeys();
    FlapResolves(env, g.client.ranges);
    assert Clean(g);
    var g1 := OnSvcAdd(env, g, Svc1);
    SetRouteForSvcKeepsIndexes(env, g, Some(Svc1), None);
    AddFromClean(env, g, Svc1, Ep1, Svc1Expected);
    var h1 := IndexEndpoints(g1, EpEmpty);
    AddThenIneligible(env, g, Svc1, Ep1, Svc1Expected, h1, Svc1, EpEmpty);
    EpAddIsSvcAdd(env, h1, Svc1, EpEmpty, {});
    var g2 := Emptied(env, g);
    SetRouteForSvcKeepsIndexes(env, h1, Some(Svc1), None);
    var h2 := IndexEndpoints(g2, EpV6);
    ReindexTracked(g2, h2);
    EpAddIsSvcAdd(env, h2, Svc1, EpV6, {});
    AddFromClean(env, h2, Svc1, EpV6, {});
    var g3 := BackV6(env, g);
    SetRouteForSvcKeepsIndexes(env, h2, Some(Svc1), None);
    var h3 := IndexEndpoints(g3, EpV4);
    ReindexTracked(g3, h3);
    EpAddIsSvcAdd(env, h3, Svc1, EpV4, Svc1Expected);
    AddFromClean(env, h3, Svc1, EpV4, Svc1Expected);
  }

  /**
   * foo/bar added: three revisions, its routes programmed. Its endpoints
   * emptied: three more, every route withdrawn and the cache empty. Back
   * with only an IPv6 address: no revision, nothing advertised. Back with an
   * IPv4 address: three more, its routes programmed again.
   */
  lemma EndpointsFlapScenario(env: Env)
    requires FixtureEnv(env)
    ensures var g1 := OnSvcAdd(env, HandlerFixture(), Svc1);
      && g1.client.revision == HandlerFixture().client.revision + 3
      && "foo/bar" in g1.svcRoutes && g1.svcRoutes["foo/bar"] == Svc1Expected
      && Programmed(g1, "127.0.0.1/32", "/calico/staticroutes/127.0.0.1-32", 1)
      && Programmed(g1, "::1/128", "/calico/staticroutesv6/::1-128", 1)
      && Programmed(g1, "172.217.3.5/32", "/calico/staticroutes/172.217.3.5-32", 1)
    ensures var g2 := Emptied(env, HandlerFixture());
      && g2.client.revision == HandlerFixture().client.revision + 6
      && "foo/bar" !in g2.svcRoutes && g2.adv == map[] && g2.client.cache == map[]
    ensures var g3 := BackV6(env, HandlerFixture());
      && g3.client.revision == HandlerFixture().client.revision + 6
      && "foo/bar" !in g3.svcRoutes && g3.adv == map[] && g3.client.cache == map[]
    ensures var g4 := BackV4(env, HandlerFixture());
      && g4.client.revision == HandlerFixture().client.revision + 9
      && "foo/bar" in g4.svcRoutes && g4.svcRoutes["foo/bar"] == Svc1Expected
      && Programmed(g4, "127.0.0.1/32", "/calico/staticroutes/127.0.0.1-32", 1)
      && Programmed(g4, "::1/128", "/calico/staticroutesv6/::1-128", 1)
      && Programmed(g4, "172.217.3.5/32", "/calico/staticroutes/172.217.3.5-32", 1)
  {
    assert FlapOutcome(env, HandlerFixture()) by { FlapHolds(env); }
    FlapObserved(env, HandlerFixture());
  }

  lemma FlapObserved(env: Env, g: GenState)
    requires FlapOutcome(env, g)
    ensures var g1 := OnSvcAdd(env, g, Svc1);
      && g1.client.revision == g.client.revision + 3
      && "foo/bar" in g1.svcRoutes && g1.svcRoutes["foo/bar"] == Svc1Expected
      && Programmed(g1, "127.0.0.1/32", "/calico/staticroutes/127.0.0.1-32", 1)
      && Programmed(g1, "::1/128", "/calico/staticroutesv6/::1-128", 1)
      && Programmed(g1, "172.217.3.5/32", "/calico/staticroutes/172.217.3.5-32", 1)
    ensures var g2 := Emptied(env, g);
      && g2.client.revision == g.client.revision + 6
      && "foo/bar" !in g2.svcRoutes && g2.adv == map[] && g2.client.cache == map[]
    ensures var g3 := BackV6(env, g);
      && g3.client.revision == g.client.revision + 6
      && "foo/bar" !in g3.svcRoutes && g3.adv == map[] && g3.client.cache == map[]
    ensures var g4 := BackV4(env, g);
      && g4.client.revision == g.client.revision + 9
      && "foo/bar" in g4.svcRoutes && g4.svcRoutes["foo/bar"] == Svc1Expected
      && Programmed(g4, "127.0.0.1/32", "/calico/staticroutes/127.0.0.1-32", 1)
      && Programmed(g4, "::1/128", "/calico/staticroutesv6/::1-128", 1)
      && Programmed(g4, "172.217.3.5/32", "/calico/staticroutes/172.217.3.5-32", 1)
  {
    BarCycle(g, OnSvcAdd(env, g, Svc1), Emptied(env, g));
    BarSole(BackV6(env, g), BackV4(env, g));
  }

  // ---------------------------------------------------------------------
  // foo/bar retyped to ExternalName in the informer store
  // ---------------------------------------------------------------------

  /** foo/bar once its type is set to ExternalName. */
  const Svc1Ext: Service := Svc1.(spec := Svc1.spec.(serviceType := ExternalName))

  /** A service recomputed through onSvcUpdate, replaced in the store by
      `svc2`, and recomputed again. */
  function RetypedBySvc(env: Env, g: GenState, svc: Service, svc2: Service): GenState {
    var g1 := OnSvcUpdate(env, g, None, svc);
    OnSvcUpdate(env, IndexService(g1, svc2), None, svc2)
  }

  /** The same through onEPUpdate of its unchanged endpoints. */
  function RetypedByEp(env: Env, g: GenState, ep: Endpoints, svc2: Service): GenState {
    var g1 := OnEPUpdate(env, g, None, ep);
    OnEPUpdate(env, IndexService(g1, svc2), None, ep)
  }

  predicate RetypeOutcome(env: Env, g: GenState) {
    && CycleOutcome(g, OnSvcUpdate(env, g, None, Svc1), RetypedBySvc(env, g, Svc1, Svc1Ext), "foo/bar", Svc1Expected)
    && CycleOutcome(g, OnEPUpdate(env, g, None, Ep1), RetypedByEp(env, g, Ep1, Svc1Ext), "foo/bar", Svc1Expected)
  }

  lemma RetypeHolds(env: Env)
    requires FixtureEnv(env)
    ensures RetypeOutcome(env, HandlerFixture())
  {
    var g := HandlerFixture();
    BarStartsFresh(env);
    assert Clean(g);
    FixtureTextsDashFree();
    assert TextsDashFree(Svc1Ext);
    FixtureKeys();
    RetypeSvcCycle(env, g, Svc1, Ep1, Svc1Expected, Svc1Ext);
    RetypeSame(env, g, Svc1, Ep1, Svc1Expected, Svc1Ext);
  }

  /** A service added from a clean state and then set to ExternalName in the
      store: its routes are programmed, then all withdrawn. */
  lemma RetypeSvcCycle(env: Env, g: GenState, svc: Service, ep: Endpoints, routes: set<string>, svc2: Service)
    requires Clean(g) && Indexed(env, g, svc, ep, routes)
    requires svc2.meta == svc.meta && svc2.spec.serviceType == ExternalName && TextsDashFree(svc2)
    ensures CycleOutcome(g, OnSvcUpdate(env, g, None, svc), RetypedBySvc(env, g, svc, svc2), MetaKey(svc.meta), routes)
  {
    var g1 := OnSvcAdd(env, g, svc);
    SetRouteForSvcKeepsIndexes(env, g, Some(svc), None);
    AddFromClean(env, g, svc, ep, routes);
    var h := IndexService(g1, svc2);
    IndexServiceDashFree(g1, svc2);
    IneligibleServiceHasNoRoutes(env.lib, env.usable, h.client.ranges, env.nodeName, svc2, ep);
    assert Indexed(env, h, svc2, ep, {});
    AddThenIneligible(env, g, svc, ep, routes, h, svc2, ep);
  }

  /** With the service indexed, onEPUpdate of its endpoints takes the same steps as onSvcUpdate. */
  lemma RetypeSame(env: Env, g: GenState, svc: Service, ep: Endpoints, routes: set<string>, svc2: Service)
    requires Indexed(env, g, svc, ep, routes) && svc2.meta == svc.meta
    ensures OnEPUpdate(env, g, None, ep) == OnSvcUpdate(env, g, None, svc)
    ensures RetypedByEp(env, g, ep, svc2) == RetypedBySvc(env, g, svc, svc2)
  {
    var g1 := OnSvcAdd(env, g, svc);
    EpAddIsSvcAdd(env, g, svc, ep, routes);
    SetRouteForSvcKeepsIndexes(env, g, Some(svc), None);
    var h := IndexService(g1, svc2);
    assert GetServiceForEndpoints(h, ep) == (Some(svc2), MetaKey(svc.meta));
    assert GetEndpointsForService(h, svc2) == (Some(ep), MetaKey(svc.meta));
  }

  /**
   * onSvcUpdate of foo/bar programs its three routes, three revisions; set to
   * ExternalName and updated again, it withdraws all three, three more, and
   * leaves no route under foo/bar and nothing in the cache.
   */
  lemma SvcRetypeScenario(env: Env)
    requires FixtureEnv(env)
    ensures var g1 := OnSvcUpdate(env, HandlerFixture(), None, Svc1);
      && g1.client.revision == HandlerFixture().client.revision + 3
      && "foo/bar" in g1.svcRoutes && g1.svcRoutes["foo/bar"] == Svc1Expected
      && Programmed(g1, "127.0.0.1/32", "/calico/staticroutes/127.0.0.1-32", 1)
      && Programmed(g1, "::1/128", "/calico/staticroutesv6/::1-128", 1)
      && Programmed(g1, "172.217.3.5/32", "/calico/staticroutes/172.217.3.5-32", 1)
    ensures var g2 := RetypedBySvc(env, HandlerFixture(), Svc1, Svc1Ext);
      && g2.client.revision == HandlerFixture().client.revision + 6
      && "foo/bar" !in g2.svcRoutes && g2.client.cache == map[]
      && Withdrawn(g2, "127.0.0.1/32", "/calico/staticroutes/127.0.0.1-32")
      && Withdrawn(g2, "::1/128", "/calico/staticroutesv6/::1-128")
      && Withdrawn(g2, "172.217.3.5/32", "/calico/staticroutes/172.217.3.5-32")
  {
    assert RetypeOutcome(env, HandlerFixture()) by { RetypeHolds(env); }
    RetypeObserved(env, HandlerFixture());
  }

  /** The same cycle driven by onEPUpdate of foo/bar's endpoints. */
  lemma EpRetypeScenario(env: Env)
    requires FixtureEnv(env)
    ensures var g1 := OnEPUpdate(env, HandlerFixture(), None, Ep1);
      && g1.client.revision == HandlerFixture().client.revision + 3
      && "foo/bar" in g1.svcRoutes && g1.svcRoutes["foo/bar"] == Svc1Expected
      && Programmed(g1, "127.0.0.1/32", "/calico/staticroutes/127.0.0.1-32", 1)
      && Programmed(g1, "::1/128", "/calico/staticroutesv6/::1-128", 1)
      && Programmed(g1, "172.217.3.5/32", "/calico/staticroutes/172.217.3.5-32", 1)
    ensures var g2 := RetypedByEp(env, HandlerFixture(), Ep1, Svc1Ext);
      && g2.client.revision == HandlerFixture().client.revision + 6
      && "foo/bar" !in g2.svcRoutes && g2.client.cache == map[]
      && Withdrawn(g2, "127.0.0.1/32", "/calico/staticroutes/127.0.0.1-32")
      && Withdrawn(g2, "::1/128", "/calico/staticroutesv6/::1-128")
      && Withdrawn(g2, "172.217.3.5/32", "/calico/staticroutes/172.217.3.5-32")
  {
    assert RetypeOutcome(env, HandlerFixture()) by { RetypeHolds(env); }
    RetypeObserved(env, HandlerFixture());
  }

  lemma RetypeObserved(env: Env, g: GenState)
    requires RetypeOutcome(env, g)
    ensures var g1 := OnSvcUpdate(env, g, None, Svc1);
      && g1.client.revision == g.client.revision + 3
      && "foo/bar" in g1.svcRoutes && g1.svcRoutes["foo/bar"] == Svc1Expected
      && Programmed(g1, "127.0.0.1/32", "/calico/staticroutes/127.0.0.1-32", 1)
      && Programmed(g1, "::1/128", "/calico/staticroutesv6/::1-128", 1)
      && Programmed(g1, "172.217.3.5/32", "/calico/staticroutes/172.217.3.5-32", 1)
    ensures var g2 := RetypedBySvc(env, g, Svc1, Svc1Ext);
      && g2.client.revision == g.client.revision + 6
      && "foo/bar" !in g2.svcRoutes && g2.client.cache == map[]
      && Withdrawn(g2, "127.0.0.1/32", "/calico/staticroutes/127.0.0.1-32")
      && Withdrawn(g2, "::1/128", "/calico/staticroutesv6/::1-128")
      && Withdrawn(g2, "172.217.3.5/32", "/calico/staticroutes/172.217.3.5-32")
    ensures var g1 := OnEPUpdate(env, g, None, Ep1);
      && g1.client.revision == g.client.revision + 3
      && "foo/bar" in g1.svcRoutes && g1.svcRoutes["foo/bar"] == Svc1Expected
      && Programmed(g1, "127.0.0.1/32", "/calico/staticroutes/127.0.0.1-32", 1)
      && Programmed(g1, "::1/128", "/calico/staticroutesv6/::1-128", 1)
      && Programmed(g1, "172.217.3.5/32", "/calico/staticroutes/172.217.3.5-32", 1)
    ensures var g2 := RetypedByEp(env, g, Ep1, Svc1Ext);
      && g2.client.revision == g.client.revision + 6
      && "foo/bar" !in g2.svcRoutes && g2.client.cache == map[]
      && Withdrawn(g2, "127.0.0.1/32", "/calico/staticroutes/127.0.0.1-32")
      && Withdrawn(g2, "::1/128", "/calico/staticroutesv6/::1-128")
      && Withdrawn(g2, "172.217.3.5/32", "/calico/staticroutes/172.217.3.5-32")
  {
    BarCycle(g, OnSvcUpdate(env, g, None, Svc1), RetypedBySvc(env, g, Svc1, Svc1Ext));
    BarCycle(g, OnEPUpdate(env, g, None, Ep1), RetypedByEp(env, g, Ep1, Svc1Ext));
  }

  // ---------------------------------------------------------------------
  // onEPAdd and onEPDelete
  // ---------------------------------------------------------------------

  /** Adding and deleting foo/bar's endpoints is adding and deleting the service. */
  predicate EpAddDeleteOutcome(env: Env, g: GenState) {
    && AddDeleteOutcome(env, g, Svc1, Svc1Expected)
    && OnEPAdd(env, g, Ep1) == OnSvcAdd(env, g, Svc1)
    && OnEPDelete(OnSvcAdd(env, g, Svc1), Ep1) == OnSvcDelete(OnSvcAdd(env, g, Svc1), Svc1)
  }

  lemma EpAddDeleteHolds(env: Env, g: GenState)
    requires Fresh0(g) && Indexed(env, g, Svc1, Ep1, Svc1Expected)
    ensures EpAddDeleteOutcome(env, g)
  {
    AddThenDelete(env, g, Svc1, Ep1, Svc1Expected);
    EpAddIsSvcAdd(env, g, Svc1, Ep1, Svc1Expected);
    FixtureKeys();
    EpDeleteIsSvcDelete(OnSvcAdd(env, g, Svc1), Svc1, Ep1);
  }

  /**
   * onEPAdd of foo/bar's endpoints programs its three routes, three
   * revisions; onEPDelete withdraws them, three more, and drops foo/bar.
   */
  lemma EpAddThenDeleteScenario(env: Env)
    requires FixtureEnv(env)
    ensures var g1 := OnEPAdd(env, HandlerFixture(), Ep1);
      && g1.client.revision == HandlerFixture().client.revision + 3
      && "foo/bar" in g1.svcRoutes && g1.svcRoutes["foo/bar"] == Svc1Expected
      && Programmed(g1, "127.0.0.1/32", "/calico/staticroutes/127.0.0.1-32", 1)
      && Programmed(g1, "::1/128", "/calico/staticroutesv6/::1-128", 1)
      && Programmed(g1, "172.217.3.5/32", "/calico/staticroutes/172.217.3.5-32", 1)
    ensures var g2 := OnEPDelete(OnEPAdd(env, HandlerFixture(), Ep1), Ep1);
      && g2.client.revision == HandlerFixture().client.revision + 6
      && "foo/bar" !in g2.svcRoutes
      && Withdrawn(g2, "127.0.0.1/32", "/calico/staticroutes/127.0.0.1-32")
      && Withdrawn(g2, "::1/128", "/calico/staticroutesv6/::1-128")
      && Withdrawn(g2, "172.217.3.5/32", "/calico/staticroutes/172.217.3.5-32")
  {
    assert EpAddDeleteOutcome(env, HandlerFixture()) by {
      BarStartsFresh(env);
      EpAddDeleteHolds(env, HandlerFixture());
    }
    EpAddDeleteObserved(env, HandlerFixture());
  }

  lemma EpAddDeleteObserved(env: Env, g: GenState)
    requires EpAddDeleteOutcome(env, g)
    ensures var g1 := OnEPAdd(env, g, Ep1);
      && g1.client.revision == g.client.revision + 3
      && "foo/bar" in g1.svcRoutes && g1.svcRoutes["foo/bar"] == Svc1Expected
      && Programmed(g1, "127.0.0.1/32", "/calico/staticroutes/127.0.0.1-32", 1)
      && Programmed(g1, "::1/128", "/calico/staticroutesv6/::1-128", 1)
      && Programmed(g1, "172.217.3.5/32", "/calico/staticroutes/172.217.3.5-32", 1)
    ensures var g2 := OnEPDelete(OnEPAdd(env, g, Ep1), Ep1);
      && g2.client.revision == g.client.revision + 6
      && "foo/bar" !in g2.svcRoutes
      && Withdrawn(g2, "127.0.0.1/32", "/calico/staticroutes/127.0.0.1-32")
      && Withdrawn(g2, "::1/128", "/calico/staticroutesv6/::1-128")
      && Withdrawn(g2, "172.217.3.5/32", "/calico/staticroutes/172.217.3.5-32")
  {
    BarAddThenDelete(env, g);
  }

  // ---------------------------------------------------------------------
  // setRouteForSvc with one half given, and the two lookups
  // ---------------------------------------------------------------------

  /** The generator before any object is indexed. */
  function EmptyIndexes(): GenState {
    HandlerFixture().(svcIndex := map[], epIndex := map[])
  }

  /**
   * With only the endpoints indexed, setRouteForSvc(svc, nil) records foo/bar's
   * routes; with only the service indexed, setRouteForSvc(nil, ep) does; in
   * both cases unsetRouteForSvc of the endpoints leaves foo/bar with nothing.
   */
  lemma SetUnsetScenario(env: Env)
    requires FixtureEnv(env)
    ensures var g1 := SetRouteForSvc(env, IndexEndpoints(EmptyIndexes(), Ep1), Some(Svc1), None);
      && "foo/bar" in g1.svcRoutes && g1.svcRoutes["foo/bar"] == Svc1Expected
      && "foo/bar" !in UnsetRouteForSvc(g1, Ep1.meta).svcRoutes
    ensures var g1 := SetRouteForSvc(env, IndexService(EmptyIndexes(), Svc1), None, Some(Ep1));
      && "foo/bar" in g1.svcRoutes && g1.svcRoutes["foo/bar"] == Svc1Expected
      && "foo/bar" !in UnsetRouteForSvc(g1, Ep1.meta).svcRoutes
  {
    FixtureKeys();
    FixtureResolves(env);
    assert ServiceRoutes(env, IndexEndpoints(EmptyIndexes(), Ep1), Svc1, Ep1) == Svc1Expected;
    assert ServiceRoutes(env, IndexService(EmptyIndexes(), Svc1), Svc1, Ep1) == Svc1Expected;
  }

  /** Each lookup finds the other half under foo/bar and returns that key. */
  lemma LookupScenario()
    ensures GetServiceForEndpoints(IndexService(EmptyIndexes(), Svc1), BuildSimpleService().1) == (Some(Svc1), "foo/bar")
    ensures GetEndpointsForService(IndexEndpoints(EmptyIndexes(), BuildSimpleService().1), Svc1)
            == (Some(BuildSimpleService().1), "foo/bar")
  {
    FixtureKeys();
  }
}
