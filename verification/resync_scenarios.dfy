/**
 * The scenarios of confd/pkg/backends/calico/routes_test.go that change the
 * BGP configuration's range lists and then resynchronise every known service.
 * After a resync a route is advertised exactly when some indexed service with
 * endpoints resolves to it under the ranges then configured; what the client
 * then holds follows from the route being owned by the generator.
 */
module ResyncScenarios {
  import opened Wrappers
  import opened Strings
  import opened Net
  import opened Kube
  import opened RangeIndex
  import opened Resolver
  import opened Ledger
  import opened Engine
  import opened Outcomes
  import opened Scenarios
  import opened HandlerScenarios
  import opened ConfigScenarios
  import opened EndpointScenarios

  // ---------------------------------------------------------------------
  // What a resync records
  // ---------------------------------------------------------------------

  /** The keys of the indexed services, with endpoints, that resolve to `r`. */
  function ResolvedBy(env: Env, g: GenState, r: string): set<string> {
    set k | k in g.svcIndex && k in g.epIndex && r in ServiceRoutes(env, g, g.svcIndex[k], g.epIndex[k])
  }

  /** Every service with recorded routes is still indexed, with its endpoints. */
  predicate RoutesIndexed(g: GenState) {
    forall k :: k in g.svcRoutes ==> k in g.svcIndex && k in g.epIndex
  }

  /** The facts carried through the resync scenarios. */
  ghost predicate Steady(g: GenState) {
    GInv(g) && AdvDashFree(g) && IndexDashFree(g) && IndexKeyed(g.svcIndex) && RoutesIndexed(g)
  }

  /** The route is published under its static-route key with one reference. */
  predicate Shown(g: GenState, r: string) {
    StaticRouteKey(r) in g.client.cache && g.client.cache[StaticRouteKey(r)] == r
    && Count(g.client, StaticRouteKey(r)) == 1
  }

  /** Neither a cache entry nor a reference count is left for the route. */
  predicate Gone(g: GenState, r: string) {
    StaticRouteKey(r) !in g.client.cache && StaticRouteKey(r) !in g.client.programmed
  }

  /**
   * After a resync every route is claimed by exactly the indexed services
   * that resolve to it, so it is advertised iff one of them does; the
   * indexes, the ranges and every non-static cache entry stay as they were.
   */
  lemma ResyncClaims(env: Env, g: GenState)
    requires GInv(g) && IndexKeyed(g.svcIndex) && RoutesIndexed(g)
    ensures GInv(Resync(env, g)) && RoutesIndexed(Resync(env, g))
    ensures forall r :: Claimants(Resync(env, g).svcRoutes, r) == ResolvedBy(env, g, r)
    ensures forall r :: r in Resync(env, g).adv <==> ResolvedBy(env, g, r) != {}
    ensures Resync(env, g).svcIndex == g.svcIndex && Resync(env, g).epIndex == g.epIndex
    ensures Resync(env, g).client.ranges == g.client.ranges
    ensures NonStaticEntries(Resync(env, g).client) == NonStaticEntries(g.client)
  {
    var h := Resync(env, g);
    ResyncRoutes(env, g);
    ResyncServicesPreservesGInv(env, g, IndexedServices(g.svcIndex));
    assert Recomputes(env, g, h);
    ResyncKeepsIndexed(env, g, h);
    forall r ensures Claimants(h.svcRoutes, r) == ResolvedBy(env, g, r) {
      ResyncClaimants(env, g, h, r);
    }
    forall r ensures r in h.adv <==> ResolvedBy(env, g, r) != {} {
      assert AdvCount(h, r) == |Claimants(h.svcRoutes, r)|;
    }
  }

  /** The recorded routes of a generator whose indexed keys were recomputed
      and whose other keys were left alone. */
  ghost predicate Recomputes(env: Env, g: GenState, h: GenState) {
    (forall k :: k in g.svcIndex && k in g.epIndex ==>
       CurrentRoutes(h, k) == ServiceRoutes(env, g, g.svcIndex[k], g.epIndex[k]))
    && (forall k :: !(k in g.svcIndex && k in g.epIndex) ==> CurrentRoutes(h, k) == CurrentRoutes(g, k))
  }

  lemma ResyncKeepsIndexed(env: Env, g: GenState, h: GenState)
    requires Recomputes(env, g, h) && RoutesIndexed(g)
    requires h.svcIndex == g.svcIndex && h.epIndex == g.epIndex
    requires forall k :: k in h.svcRoutes ==> h.svcRoutes[k] != {}
    ensures RoutesIndexed(h)
  {
    forall k | k in h.svcRoutes ensures k in h.svcIndex && k in h.epIndex {
      assert CurrentRoutes(h, k) != {};
    }
  }

  lemma ResyncClaimants(env: Env, g: GenState, h: GenState, r: string)
    requires Recomputes(env, g, h) && RoutesIndexed(g)
    ensures Claimants(h.svcRoutes, r) == ResolvedBy(env, g, r)
  {
    forall k ensures k in Claimants(h.svcRoutes, r) <==> k in ResolvedBy(env, g, r) {
      if !(k in g.svcIndex && k in g.epIndex) {
        assert CurrentRoutes(h, k) == CurrentRoutes(g, k) == {};
      } else {
        assert CurrentRoutes(h, k) == ServiceRoutes(env, g, g.svcIndex[k], g.epIndex[k]);
      }
    }
  }

  /** A resync keeps the scenario facts and route `r` owned; it shows `r`
      iff some indexed service resolves to it. */
  lemma ResyncObserved(env: Env, g: GenState, r: string)
    requires Steady(g) && '-' !in r && Owned(g, r)
    ensures Steady(Resync(env, g)) && Owned(Resync(env, g), r)
    ensures ResolvedBy(env, g, r) != {} ==> Shown(Resync(env, g), r)
    ensures ResolvedBy(env, g, r) == {} ==> Gone(Resync(env, g), r)
  {
    ResyncClaims(env, g);
    ResyncOwned(env, g, r);
    OwnedMeaning(Resync(env, g), r);
  }

  /**
   * Replacing one range list keeps the scenario facts and leaves the
   * generator's own bookkeeping alone, as long as no dropped range that
   * holds a reference is an advertised route; route `r` stays owned when
   * the update neither adds nor drops it, or when it is a single host
   * (which holds no reference).
   */
  lemma RangeStep(env: Env, g: GenState, cat: Category, next: seq<string>, r: string)
    requires Steady(g) && '-' !in r && Owned(g, r)
    requires ParseAll(env.lib, next).Some?
    requires DashFree(Entries(g.client.ranges, cat)) && DashFree(next)
    requires (r in Entries(g.client.ranges, cat) <==> r in next) || IsSingleHostText(env.lib, r)
    requires forall x :: x in Entries(g.client.ranges, cat) && x !in next && !IsSingleHostText(env.lib, x) ==> x !in g.adv
    ensures Steady(OnRangesUpdate(env, g, cat, next)) && Owned(OnRangesUpdate(env, g, cat, next), r)
    ensures OnRangesUpdate(env, g, cat, next).adv == g.adv
    ensures OnRangesUpdate(env, g, cat, next).svcRoutes == g.svcRoutes
    ensures OnRangesUpdate(env, g, cat, next).svcIndex == g.svcIndex
    ensures OnRangesUpdate(env, g, cat, next).epIndex == g.epIndex
    ensures OnRangesUpdate(env, g, cat, next).client.ranges ==
            WithEntries(g.client.ranges, cat, next, ParseAll(env.lib, next).value)
  {
    var cur := Entries(g.client.ranges, cat);
    DifferencesDistinct(cur, next);
    DifferencesDashFree(cur, next);
    StaticHitsOfDistinct(env.lib, Dropped(cur, next), r);
    StaticHitsOfDistinct(env.lib, Added(cur, next), r);
    OnRangesUpdateOwned(env, g, cat, next, r);
    forall a | a in g.adv ensures StaticHits(env.lib, Dropped(cur, next), StaticRouteKey(a)) == 0 {
      StaticHitsOfDistinct(env.lib, Dropped(cur, next), a);
    }
    OnRangesUpdatePreservesGInv(env, g, cat, next);
  }

  /** Resyncing and recomputing services leave the reject entries alone. */
  lemma RejectKept(c: ClientState, d: ClientState, x: string)
    requires NonStaticEntries(d) == NonStaticEntries(c)
    ensures RejectKey(x) in d.cache <==> RejectKey(x) in c.cache
    ensures RejectKey(x) in c.cache ==> d.cache[RejectKey(x)] == c.cache[RejectKey(x)]
  {
    OtherKeysAreNotStatic(x);
    assert RejectKey(x) in NonStaticEntries(c) <==> RejectKey(x) in c.cache;
    assert RejectKey(x) in NonStaticEntries(d) <==> RejectKey(x) in d.cache;
  }

  /** Withdrawing one service keeps the scenario facts and removes it from every route's claimants. */
  lemma DeleteObserved(g: GenState, meta: ObjectMeta, r: string)
    requires Steady(g) && '-' !in r && Owned(g, r)
    ensures Steady(UnsetRouteForSvc(g, meta)) && Owned(UnsetRouteForSvc(g, meta), r)
    ensures Claimants(UnsetRouteForSvc(g, meta).svcRoutes, r) == Claimants(g.svcRoutes, r) - {MetaKey(meta)}
    ensures UnsetRouteForSvc(g, meta).svcIndex == g.svcIndex
    ensures UnsetRouteForSvc(g, meta).epIndex == g.epIndex
    ensures UnsetRouteForSvc(g, meta).client.ranges == g.client.ranges
  {
    UnsetRouteForSvcOwned(g, meta, r);
  }

  // ---------------------------------------------------------------------
  // The fixture services under changing ranges
  // ---------------------------------------------------------------------

  /** What a Go map read returns: the cached value, or "" when the key is missing. */
  function CacheValue(c: ClientState, k: string): (v: string)
    ensures k !in c.cache ==> v == ""
  {
    if k in c.cache then c.cache[k] else ""
  }

  /** The routes each fixture service resolves to under `cfg`, keyed by its indexer key. */
  function FixtureRoutes(lib: NetLib, cfg: RangeConfig, k: string): set<string> {
    var cluster := |cfg.clusterCIDRs| > 0;
    if k == "foo/bar" then
      (if cluster then {"127.0.0.1/32", "::1/128"} else {})
      + (if Allowed(lib, cfg.externalIPNets, ExternalIP1) then {"45.12.70.5/32"} else {})
      + (if Allowed(lib, cfg.externalIPNets, ExternalIP2) then {"172.217.3.5/32"} else {})
    else if k == "foo/rem" then
      (if cluster then {"127.0.0.5/32", "::5/128"} else {})
      + (if Allowed(lib, cfg.externalIPNets, ExternalIP1) then {"45.12.70.5/32"} else {})
      + (if Allowed(lib, cfg.externalIPNets, ExternalIP2) then {"172.217.3.5/32"} else {})
    else if k == "foo/lb" then
      (if cluster then {"127.0.0.10/32", "::a/128"} else {})
      + (if Allowed(lib, cfg.loadBalancerIPNets, LoadBalancerIP1) then {"172.217.4.10/32"} else {})
    else if k == "foo/ext" then
      (if cluster then {"127.0.0.11/32", "::b/128"} else {})
      + (if Allowed(lib, cfg.externalIPNets, ExternalIP3) then {"45.12.70.7/32"} else {})
    else {}
  }

  const FixtureKeySet: set<string> := {"foo/bar", "foo/rem", "foo/lb", "foo/ext"}

  /** The indexes hold some of the fixture services, each with its own endpoints. */
  predicate SubFixture(g: GenState) {
    g.svcIndex.Keys == g.epIndex.Keys
    && g.svcIndex.Keys <= FixtureKeySet
    && ("foo/bar" in g.svcIndex ==> g.svcIndex["foo/bar"] == Svc1 && g.epIndex["foo/bar"] == Ep1)
    && ("foo/rem" in g.svcIndex ==> g.svcIndex["foo/rem"] == Svc2 && g.epIndex["foo/rem"] == Ep2)
    && ("foo/lb" in g.svcIndex ==> g.svcIndex["foo/lb"] == Svc3 && g.epIndex["foo/lb"] == Ep3)
    && ("foo/ext" in g.svcIndex ==> g.svcIndex["foo/ext"] == Svc4 && g.epIndex["foo/ext"] == Ep4)
  }

  /** Each indexed fixture service resolves to its fixture routes. */
  lemma FixtureServiceRoutes(env: Env, g: GenState, k: string)
    requires FixtureEnv(env) && SubFixture(g) && k in g.svcIndex
    ensures ServiceRoutes(env, g, g.svcIndex[k], g.epIndex[k]) == FixtureRoutes(env.lib, g.client.ranges, k)
  {
    if k == "foo/bar" {
      BarRoutes(env, g, k);
    } else if k == "foo/rem" {
      RemRoutes(env, g, k);
    } else if k == "foo/lb" {
      LbRoutes(env, g, k);
    } else {
      ExtRoutes(env, g, k);
    }
  }

  lemma BarRoutes(env: Env, g: GenState, k: string)
    requires FixtureEnv(env) && SubFixture(g) && k in g.svcIndex && k == "foo/bar"
    ensures ServiceRoutes(env, g, g.svcIndex[k], g.epIndex[k]) == FixtureRoutes(env.lib, g.client.ranges, k)
  {
    FixtureEndpointsLocal(env);
    Svc1Routes(env, g.client.ranges, Ep1);
  }

  lemma RemRoutes(env: Env, g: GenState, k: string)
    requires FixtureEnv(env) && SubFixture(g) && k in g.svcIndex && k == "foo/rem"
    ensures ServiceRoutes(env, g, g.svcIndex[k], g.epIndex[k]) == FixtureRoutes(env.lib, g.client.ranges, k)
  {
    FixtureKeysDiffer();
    FixtureEndpointsLocal(env);
    Svc2Routes(env, g.client.ranges, Ep2);
  }

  lemma LbRoutes(env: Env, g: GenState, k: string)
    requires FixtureEnv(env) && SubFixture(g) && k in g.svcIndex && k == "foo/lb"
    ensures ServiceRoutes(env, g, g.svcIndex[k], g.epIndex[k]) == FixtureRoutes(env.lib, g.client.ranges, k)
  {
    FixtureKeysDiffer();
    FixtureEndpointsLocal(env);
    Svc3Routes(env, g.client.ranges, Ep3);
  }

  lemma ExtRoutes(env: Env, g: GenState, k: string)
    requires FixtureEnv(env) && SubFixture(g) && k in g.svcIndex && k == "foo/ext"
    ensures ServiceRoutes(env, g, g.svcIndex[k], g.epIndex[k]) == FixtureRoutes(env.lib, g.client.ranges, k)
  {
    FixtureKeysDiffer();
    FixtureEndpointsLocal(env);
    Svc4Routes(env, g.client.ranges, Ep4);
  }

  /** No indexed fixture service resolves to `r`. */
  lemma NoneResolves(env: Env, g: GenState, r: string)
    requires FixtureEnv(env) && SubFixture(g)
    requires forall k :: k in FixtureKeySet ==> r !in FixtureRoutes(env.lib, g.client.ranges, k)
    ensures ResolvedBy(env, g, r) == {}
  {
    forall k | k in ResolvedBy(env, g, r) ensures false {
      FixtureServiceRoutes(env, g, k);
    }
  }

  /** The indexed fixture service under `k` resolves to `r`. */
  lemma SomeResolves(env: Env, g: GenState, r: string, k: string)
    requires FixtureEnv(env) && SubFixture(g) && k in g.svcIndex
    requires r in FixtureRoutes(env.lib, g.client.ranges, k)
    ensures k in ResolvedBy(env, g, r)
  {
    FixtureServiceRoutes(env, g, k);
  }

  /** The generator at the start of a resync scenario: nothing recorded, nothing
      advertised, the fixture ranges configured and every route owned. */
  ghost predicate FixtureLike(g: GenState) {
    Steady(g) && Exact(g) && SubFixture(g) && g.svcRoutes == map[] && g.adv == map[]
    && g.client.ranges == FixtureRanges
    && forall r :: '-' !in r ==> Owned(g, r)
  }

  lemma FixtureIsFixtureLike()
    ensures FixtureLike(HandlerFixture())
  {
    FixtureTracked();
    FixtureKeys();
  }

  /** Taking one service and its endpoints out of the informer stores keeps a start state. */
  lemma UnindexedFixtureLike(g: GenState, epMeta: ObjectMeta, svcMeta: ObjectMeta)
    requires FixtureLike(g) && MetaKey(epMeta) == MetaKey(svcMeta)
    ensures FixtureLike(UnindexService(UnindexEndpoints(g, epMeta), svcMeta))
  {
    var h := UnindexService(UnindexEndpoints(g, epMeta), svcMeta);
    assert h.client == g.client && h.svcRoutes == g.svcRoutes && h.adv == g.adv;
    assert h.svcIndex.Keys == h.epIndex.Keys;
    assert forall r :: AdvCount(h, r) == AdvCount(g, r);
    forall r | '-' !in r ensures Owned(h, r) {
      assert Owned(g, r);
    }
  }

  // ---------------------------------------------------------------------
  // External IPs follow the configured ranges (routes_test.go 548-570)
  // ---------------------------------------------------------------------

  const Single1: string := "45.12.70.5/32"
  const Single2: string := "172.217.3.5/32"

  lemma Range1Resolution(env: Env, g: GenState)
    requires FixtureEnv(env) && SubFixture(g) && "foo/bar" in g.svcIndex
    requires g.client.ranges.externalIPNets == Range1Nets
    ensures ResolvedBy(env, g, Single1) != {}
    ensures ResolvedBy(env, g, Single2) == {}
    ensures ResolvedBy(env, g, ExternalIPRange1) == {}
  {
    Range1Admits(env.lib);
    SomeResolves(env, g, Single1, "foo/bar");
    Range1Unclaimed(env.lib, g.client.ranges);
    NoneResolves(env, g, Single2);
    NoneResolves(env, g, ExternalIPRange1);
  }

  lemma Range1Unclaimed(lib: NetLib, cfg: RangeConfig)
    requires FixtureParser(lib) && cfg.externalIPNets == Range1Nets
    ensures forall k :: k in FixtureKeySet ==> Single2 !in FixtureRoutes(lib, cfg, k)
    ensures forall k :: k in FixtureKeySet ==> ExternalIPRange1 !in FixtureRoutes(lib, cfg, k)
  {
    Range1DropsSingle2(lib, cfg);
    Range1NotRoute(lib, cfg);
  }

  lemma Range1DropsSingle2(lib: NetLib, cfg: RangeConfig)
    requires FixtureParser(lib) && cfg.externalIPNets == Range1Nets
    ensures forall k :: k in FixtureKeySet ==> Single2 !in FixtureRoutes(lib, cfg, k)
  {
    FixtureKeysDiffer();
    Range1Admits(lib);
  }

  /** A /16 range is never itself a route, which always ends in /32 or /128. */
  lemma Range1NotRoute(lib: NetLib, cfg: RangeConfig)
    ensures forall k :: k in FixtureKeySet ==> ExternalIPRange1 !in FixtureRoutes(lib, cfg, k)
  {
    FixtureKeysDiffer();
    assert ExternalIPRange1[|ExternalIPRange1| - 1] == '6';
  }

  lemma Range2Resolution(env: Env, g: GenState)
    requires FixtureEnv(env) && SubFixture(g) && "foo/bar" in g.svcIndex
    requires g.client.ranges.externalIPNets == Range2Nets
    ensures ResolvedBy(env, g, Single1) == {}
    ensures ResolvedBy(env, g, Single2) != {}
  {
    SingleRangesAdmit(env.lib);
    Range2Unclaimed(env.lib, g.client.ranges);
    NoneResolves(env, g, Single1);
    SomeResolves(env, g, Single2, "foo/bar");
  }

  lemma Range2Unclaimed(lib: NetLib, cfg: RangeConfig)
    requires FixtureParser(lib) && cfg.externalIPNets == Range2Nets
    ensures forall k :: k in FixtureKeySet ==> Single1 !in FixtureRoutes(lib, cfg, k)
  {
    FixtureKeysDiffer();
    SingleRangesAdmit(lib);
  }

  /** A one-range list parses to the range's own parse. */
  lemma ParseSingle(lib: NetLib, x: string)
    requires lib.parseCIDR(x).Some?
    ensures ParseAll(lib, [x]) == Some([lib.parseCIDR(x).value])
  {
    var r := ParseAll(lib, [x]);
    assert r.value == [r.value[0]];
  }

  /** The two observed routes and the first range carry no '-'. */
  lemma ObservedTextsDashFree()
    ensures '-' !in Single1 && '-' !in Single2 && '-' !in ExternalIPRange1 && '-' !in ExternalIPRange2
    ensures DashFree([ExternalIPRange1]) && DashFree([ExternalIPRange2])
  {
  }

  /** 45.12.0.0/16 replaces the fixture's external ranges. */
  lemma Range1Update(env: Env, g: GenState)
    requires FixtureEnv(env) && Steady(g) && Owned(g, Single1) && Owned(g, Single2) && g.adv == map[]
    requires g.client.ranges.externalIPs == FixtureRanges.externalIPs
    ensures var u := OnRangesUpdate(env, g, ExternalIPs, [ExternalIPRange1]);
      && Steady(u) && Owned(u, Single1) && Owned(u, Single2) && u.svcIndex == g.svcIndex && u.epIndex == g.epIndex
      && u.client.ranges.externalIPs == [ExternalIPRange1] && u.client.ranges.externalIPNets == Range1Nets
      && RejectKey(ExternalIPRange1) in u.client.cache && u.client.cache[RejectKey(ExternalIPRange1)] == ExternalIPRange1
  {
    var next := [ExternalIPRange1];
    FixtureEntriesDashFree(ExternalIPs);
    ObservedTextsDashFree();
    assert Single1 !in g.client.ranges.externalIPs && Single2 !in g.client.ranges.externalIPs;
    ParseSingle(env.lib, ExternalIPRange1);
    RangeStep(env, g, ExternalIPs, next, Single1);
    RangeStep(env, g, ExternalIPs, next, Single2);
    UpdateRangesAdded(g.client, env.lib, ExternalIPs, next, ExternalIPRange1);
  }

  /** A resync after the update shows 45.12.70.5/32 only, and keeps the range's reject entry. */
  lemma Range1Settles(env: Env, u: GenState)
    requires FixtureEnv(env) && Steady(u) && SubFixture(u) && "foo/bar" in u.svcIndex
    requires Owned(u, Single1) && Owned(u, Single2) && u.client.ranges.externalIPNets == Range1Nets
    requires RejectKey(ExternalIPRange1) in u.client.cache && u.client.cache[RejectKey(ExternalIPRange1)] == ExternalIPRange1
    ensures var g1 := Resync(env, u);
      && Steady(g1) && SubFixture(g1) && Owned(g1, Single1) && Owned(g1, Single2)
      && g1.client.ranges == u.client.ranges
      && Shown(g1, Single1) && Gone(g1, Single2) && ExternalIPRange1 !in g1.adv
      && RejectKey(ExternalIPRange1) in g1.client.cache
      && g1.client.cache[RejectKey(ExternalIPRange1)] == ExternalIPRange1
  {
    ObservedTextsDashFree();
    Range1Resolution(env, u);
    ResyncObserved(env, u, Single1);
    ResyncObserved(env, u, Single2);
    ResyncClaims(env, u);
    RejectKept(u.client, Resync(env, u).client, ExternalIPRange1);
  }

  /** 172.217.3.5/32 replaces the first range. */
  lemma Range2Update(env: Env, g1: GenState)
    requires FixtureEnv(env) && Steady(g1) && Owned(g1, Single1) && Owned(g1, Single2)
    requires g1.client.ranges.externalIPs == [ExternalIPRange1] && ExternalIPRange1 !in g1.adv
    ensures var u := OnRangesUpdate(env, g1, ExternalIPs, [ExternalIPRange2]);
      && Steady(u) && Owned(u, Single1) && Owned(u, Single2) && u.svcIndex == g1.svcIndex && u.epIndex == g1.epIndex
      && u.client.ranges.externalIPNets == Range2Nets
      && RejectKey(ExternalIPRange1) !in u.client.cache
  {
    var next := [ExternalIPRange2];
    ObservedTextsDashFree();
    ParseSingle(env.lib, ExternalIPRange2);
    assert IsSingleHostText(env.lib, Single2);
    RangeStep(env, g1, ExternalIPs, next, Single1);
    RangeStep(env, g1, ExternalIPs, next, Single2);
    UpdateRangesDropped(g1.client, env.lib, ExternalIPs, next, ExternalIPRange1);
  }

  /** A resync after the second update shows 172.217.3.5/32 only; the reject entry stays gone. */
  lemma Range2Settles(env: Env, u: GenState)
    requires FixtureEnv(env) && Steady(u) && SubFixture(u) && "foo/bar" in u.svcIndex
    requires Owned(u, Single1) && Owned(u, Single2) && u.client.ranges.externalIPNets == Range2Nets
    requires RejectKey(ExternalIPRange1) !in u.client.cache
    ensures var g2 := Resync(env, u);
      Gone(g2, Single1) && Shown(g2, Single2) && RejectKey(ExternalIPRange1) !in g2.client.cache
  {
    ObservedTextsDashFree();
    Range2Resolution(env, u);
    ResyncObserved(env, u, Single1);
    ResyncObserved(env, u, Single2);
    ResyncClaims(env, u);
    RejectKept(u.client, Resync(env, u).client, ExternalIPRange1);
  }

  /** The first half of the scenario, from any start state holding foo/bar. */
  lemma Range1Observed(env: Env, g: GenState)
    requires FixtureEnv(env) && FixtureLike(g) && "foo/bar" in g.svcIndex
    ensures var g1 := Resync(env, OnRangesUpdate(env, g, ExternalIPs, [ExternalIPRange1]));
      && Steady(g1) && SubFixture(g1) && "foo/bar" in g1.svcIndex
      && Owned(g1, Single1) && Owned(g1, Single2)
      && g1.client.ranges.externalIPs == [ExternalIPRange1] && ExternalIPRange1 !in g1.adv
      && Shown(g1, Single1) && Gone(g1, Single2)
      && RejectKey(ExternalIPRange1) in g1.client.cache
      && g1.client.cache[RejectKey(ExternalIPRange1)] == ExternalIPRange1
  {
    var u1 := OnRangesUpdate(env, g, ExternalIPs, [ExternalIPRange1]);
    assert Owned(g, Single1) && Owned(g, Single2) by {
      ObservedTextsDashFree();
    }
    Range1Update(env, g);
    Range1Settles(env, u1);
    ResyncClaims(env, u1);
  }

  /** The second half of the scenario. */
  lemma Range2Observed(env: Env, g1: GenState)
    requires FixtureEnv(env) && Steady(g1) && SubFixture(g1) && "foo/bar" in g1.svcIndex
    requires Owned(g1, Single1) && Owned(g1, Single2)
    requires g1.client.ranges.externalIPs == [ExternalIPRange1] && ExternalIPRange1 !in g1.adv
    ensures var g2 := Resync(env, OnRangesUpdate(env, g1, ExternalIPs, [ExternalIPRange2]));
      Gone(g2, Single1) && Shown(g2, Single2) && RejectKey(ExternalIPRange1) !in g2.client.cache
  {
    Range2Update(env, g1);
    Range2Settles(env, OnRangesUpdate(env, g1, ExternalIPs, [ExternalIPRange2]));
  }

  /** The store keys the scenario reads. */
  lemma ExternalKeys()
    ensures StaticRouteKey(ExternalIP1 + "/32") == "/calico/staticroutes/" + ExternalIP1 + "-32"
    ensures StaticRouteKey(ExternalIP2 + "/32") == "/calico/staticroutes/" + ExternalIP2 + "-32"
  {
    HostRouteKeyText(ExternalIP1);
    HostRouteKeyText(ExternalIP2);
  }

  /** The store key of 45.12.70.5/32 as the scenario builds it. */
  const Single1Key: string := "/calico/staticroutes/" + ExternalIP1 + "-32"

  /** The store key of 172.217.3.5/32 as the scenario builds it. */
  const Single2Key: string := "/calico/staticroutes/" + ExternalIP2 + "-32"

  lemma Single1KeyValue()
    ensures Single1 == ExternalIP1 + "/32"
    ensures StaticRouteKey(Single1) == Single1Key
  {
    ExternalKeys();
    assert Single1 == ExternalIP1 + "/32";
  }

  lemma Single2KeyValue()
    ensures Single2 == ExternalIP2 + "/32"
    ensures StaticRouteKey(Single2) == Single2Key
  {
    ExternalKeys();
    assert Single2 == ExternalIP2 + "/32";
  }

  lemma Range1RejectKey()
    ensures RejectKey(ExternalIPRange1) == "/calico/rejectcidrs/" + ReplaceAll(ExternalIPRange1, "/", "-")
  {
    KeyTextIsReplaceAll(ExternalIPRange1);
  }

  /** onExternalIPsUpdate([45.12.0.0/16]) and a resync. */
  function AfterRange1(env: Env, g: GenState): GenState {
    Resync(env, OnRangesUpdate(env, g, ExternalIPs, [ExternalIPRange1]))
  }

  /** Then onExternalIPsUpdate([172.217.3.5/32]) and a resync. */
  function AfterRange2(env: Env, g: GenState): GenState {
    Resync(env, OnRangesUpdate(env, AfterRange1(env, g), ExternalIPs, [ExternalIPRange2]))
  }

  predicate RangeMoveOutcome(env: Env, g: GenState) {
    && Shown(AfterRange1(env, g), Single1) && Gone(AfterRange1(env, g), Single2)
    && RejectKey(ExternalIPRange1) in AfterRange1(env, g).client.cache
    && AfterRange1(env, g).client.cache[RejectKey(ExternalIPRange1)] == ExternalIPRange1
    && Gone(AfterRange2(env, g), Single1) && Shown(AfterRange2(env, g), Single2)
    && RejectKey(ExternalIPRange1) !in AfterRange2(env, g).client.cache
  }

  lemma RangeMoveHolds(env: Env, g: GenState)
    requires FixtureEnv(env) && FixtureLike(g) && "foo/bar" in g.svcIndex
    ensures RangeMoveOutcome(env, g)
  {
    Range1Observed(env, g);
    Range2Observed(env, AfterRange1(env, g));
  }

  /** The scenario's reads, in its own terms. */
  lemma RangeMoveObserved(env: Env, g: GenState)
    requires RangeMoveOutcome(env, g)
    ensures var c1 := AfterRange1(env, g).client;
      && CacheValue(c1, "/calico/staticroutes/" + ExternalIP1 + "-32") == ExternalIP1 + "/32"
      && CacheValue(c1, "/calico/staticroutes/" + ExternalIP2 + "-32") == ""
      && CacheValue(c1, "/calico/rejectcidrs/" + ReplaceAll(ExternalIPRange1, "/", "-")) == ExternalIPRange1
    ensures var c2 := AfterRange2(env, g).client;
      && CacheValue(c2, "/calico/staticroutes/" + ExternalIP1 + "-32") == ""
      && CacheValue(c2, "/calico/staticroutes/" + ExternalIP2 + "-32") == ExternalIP2 + "/32"
      && CacheValue(c2, "/calico/rejectcidrs/" + ReplaceAll(ExternalIPRange1, "/", "-")) == ""
  {
    RangeMoveReads(AfterRange1(env, g), AfterRange2(env, g));
  }

  lemma RangeMoveReads(g1: GenState, g2: GenState)
    requires Shown(g1, Single1) && Gone(g1, Single2)
    requires RejectKey(ExternalIPRange1) in g1.client.cache && g1.client.cache[RejectKey(ExternalIPRange1)] == ExternalIPRange1
    requires Gone(g2, Single1) && Shown(g2, Single2) && RejectKey(ExternalIPRange1) !in g2.client.cache
    ensures CacheValue(g1.client, "/calico/staticroutes/" + ExternalIP1 + "-32") == ExternalIP1 + "/32"
    ensures CacheValue(g1.client, "/calico/staticroutes/" + ExternalIP2 + "-32") == ""
    ensures CacheValue(g1.client, "/calico/rejectcidrs/" + ReplaceAll(ExternalIPRange1, "/", "-")) == ExternalIPRange1
    ensures CacheValue(g2.client, "/calico/staticroutes/" + ExternalIP1 + "-32") == ""
    ensures CacheValue(g2.client, "/calico/staticroutes/" + ExternalIP2 + "-32") == ExternalIP2 + "/32"
    ensures CacheValue(g2.client, "/calico/rejectcidrs/" + ReplaceAll(ExternalIPRange1, "/", "-")) == ""
  {
    Single1KeyValue();
    Single2KeyValue();
    Range1RejectKey();
    ShownReadAt(g1, Single1, Single1Key);
    GoneReadAt(g1, Single2, Single2Key);
    GoneReadAt(g2, Single1, Single1Key);
    ShownReadAt(g2, Single2, Single2Key);
  }

  /**
   * With 45.12.0.0/16 configured, a resync advertises 45.12.70.5 but not
   * 172.217.3.5 and rejects the whole range; once 172.217.3.5/32 replaces
   * it, a resync advertises 172.217.3.5 instead and the range's reject
   * entry is gone.
   */
  lemma ExternalRangesScenario(env: Env)
    requires FixtureEnv(env)
    ensures var c1 := AfterRange1(env, HandlerFixture()).client;
      && CacheValue(c1, "/calico/staticroutes/" + ExternalIP1 + "-32") == ExternalIP1 + "/32"
      && CacheValue(c1, "/calico/staticroutes/" + ExternalIP2 + "-32") == ""
      && CacheValue(c1, "/calico/rejectcidrs/" + ReplaceAll(ExternalIPRange1, "/", "-")) == ExternalIPRange1
    ensures var c2 := AfterRange2(env, HandlerFixture()).client;
      && CacheValue(c2, "/calico/staticroutes/" + ExternalIP1 + "-32") == ""
      && CacheValue(c2, "/calico/staticroutes/" + ExternalIP2 + "-32") == ExternalIP2 + "/32"
      && CacheValue(c2, "/calico/rejectcidrs/" + ReplaceAll(ExternalIPRange1, "/", "-")) == ""
  {
    assert RangeMoveOutcome(env, HandlerFixture()) by {
      FixtureIsFixtureLike();
      RangeMoveHolds(env, HandlerFixture());
    }
    RangeMoveObserved(env, HandlerFixture());
  }

  // ---------------------------------------------------------------------
  // Cluster routes need a cluster range (routes_test.go 572-586)
  // ---------------------------------------------------------------------

  const BarV4: string := "127.0.0.1/32"
  const BarV6: string := "::1/128"

  /** onSvcAdd(svc) and onEPAdd(ep) for foo/bar. */
  function BarAdded(env: Env, g: GenState): GenState {
    OnEPAdd(env, OnSvcAdd(env, g, Svc1), Ep1)
  }

  /** Then onClusterIPsUpdate([]) and a resync. */
  function ClusterWithdrawn(env: Env, g: GenState): GenState {
    Resync(env, OnRangesUpdate(env, BarAdded(env, g), ClusterIPs, []))
  }

  /** A start state holding foo/bar is fresh, and foo/bar resolves there to its expected routes. */
  lemma BarIndexedAtStart(env: Env, g: GenState)
    requires FixtureEnv(env) && FixtureLike(g) && "foo/bar" in g.svcIndex
    ensures Fresh0(g) && Indexed(env, g, Svc1, Ep1, Svc1Expected)
  {
    assert Tracked(g);
    FixtureResolves(env);
    FixtureTextsDashFree();
    FixtureKeys();
  }

  /** Adding foo/bar's service and then its endpoints advertises its routes once. */
  lemma BarAddedSteady(env: Env, g: GenState)
    requires FixtureEnv(env) && FixtureLike(g) && "foo/bar" in g.svcIndex
    ensures var g1 := BarAdded(env, g);
      && Steady(g1) && SubFixture(g1) && g1.client.ranges == FixtureRanges
      && g1.svcRoutes == map["foo/bar" := Svc1Expected]
      && Owned(g1, BarV4) && Owned(g1, BarV6)
  {
    BarIndexedAtStart(env, g);
    BarAddedIsSvcAdd(env, g);
    FirstAdd(env, g, Svc1, Ep1, Svc1Expected);
    SetRouteForSvcKeepsIndexes(env, g, Some(Svc1), None);
    assert '-' !in BarV4 && '-' !in BarV6;
  }

  /** The endpoints event after the service event changes nothing more. */
  lemma BarAddedIsSvcAdd(env: Env, g: GenState)
    requires Fresh0(g) && Indexed(env, g, Svc1, Ep1, Svc1Expected)
    ensures BarAdded(env, g) == OnSvcAdd(env, g, Svc1)
  {
    var g1 := OnSvcAdd(env, g, Svc1);
    SetRouteForSvcKeepsIndexes(env, g, Some(Svc1), None);
    assert Indexed(env, g1, Svc1, Ep1, Svc1Expected);
    EpAddIsSvcAdd(env, g1, Svc1, Ep1, Svc1Expected);
    SetRouteForSvcIdempotent(env, g, Some(Svc1), None);
  }

  /** foo/bar's two cluster routes are advertised while it is the only service recorded. */
  lemma BarClusterShown(g1: GenState)
    requires Steady(g1) && g1.svcRoutes == map["foo/bar" := Svc1Expected]
    requires Owned(g1, BarV4) && Owned(g1, BarV6)
    ensures Shown(g1, BarV4) && Shown(g1, BarV6)
  {
    ClaimantsOfOne("foo/bar", Svc1Expected, BarV4);
    ClaimantsOfOne("foo/bar", Svc1Expected, BarV6);
    assert AdvCount(g1, BarV4) == 1 && AdvCount(g1, BarV6) == 1;
    OwnedMeaning(g1, BarV4);
    OwnedMeaning(g1, BarV6);
  }

  /** Emptying the cluster ranges keeps the generator's bookkeeping. */
  lemma ClusterUpdate(env: Env, g1: GenState)
    requires FixtureEnv(env) && Steady(g1) && g1.client.ranges == FixtureRanges
    requires g1.svcRoutes == map["foo/bar" := Svc1Expected]
    requires Owned(g1, BarV4) && Owned(g1, BarV6)
    ensures var u := OnRangesUpdate(env, g1, ClusterIPs, []);
      && Steady(u) && Owned(u, BarV4) && Owned(u, BarV6)
      && u.svcIndex == g1.svcIndex && u.epIndex == g1.epIndex
      && u.client.ranges.clusterCIDRs == []
  {
    FixtureEntriesDashFree(ClusterIPs);
    assert ParseAll(env.lib, []) == Some([]);
    assert DashFree([]);
    ClusterRangeUnadvertised(g1);
    assert '-' !in BarV4 && '-' !in BarV6;
    RangeStep(env, g1, ClusterIPs, [], BarV4);
    RangeStep(env, g1, ClusterIPs, [], BarV6);
  }

  lemma ClusterRangeUnadvertised(g1: GenState)
    requires GInv(g1) && g1.svcRoutes == map["foo/bar" := Svc1Expected]
    ensures "10.0.0.0/16" !in g1.adv
  {
    ClaimantsOfOne("foo/bar", Svc1Expected, "10.0.0.0/16");
    assert AdvCount(g1, "10.0.0.0/16") == 0;
  }

  lemma ClusterUnclaimed(lib: NetLib, cfg: RangeConfig)
    requires cfg.clusterCIDRs == []
    ensures forall k :: k in FixtureKeySet ==> BarV4 !in FixtureRoutes(lib, cfg, k)
    ensures forall k :: k in FixtureKeySet ==> BarV6 !in FixtureRoutes(lib, cfg, k)
  {
  }

  /** With no cluster range a resync withdraws both cluster routes. */
  lemma ClusterSettles(env: Env, u: GenState)
    requires FixtureEnv(env) && Steady(u) && SubFixture(u) && u.client.ranges.clusterCIDRs == []
    requires Owned(u, BarV4) && Owned(u, BarV6)
    ensures Gone(Resync(env, u), BarV4) && Gone(Resync(env, u), BarV6)
  {
    assert '-' !in BarV4 && '-' !in BarV6;
    ClusterUnclaimed(env.lib, u.client.ranges);
    NoneResolves(env, u, BarV4);
    NoneResolves(env, u, BarV6);
    ResyncObserved(env, u, BarV4);
    ResyncObserved(env, u, BarV6);
  }

  predicate ClusterOutcome(env: Env, g: GenState) {
    && Shown(BarAdded(env, g), BarV4) && Shown(BarAdded(env, g), BarV6)
    && Gone(ClusterWithdrawn(env, g), BarV4) && Gone(ClusterWithdrawn(env, g), BarV6)
  }

  lemma ClusterHolds(env: Env, g: GenState)
    requires FixtureEnv(env) && FixtureLike(g) && "foo/bar" in g.svcIndex
    ensures ClusterOutcome(env, g)
  {
    var g1 := BarAdded(env, g);
    BarAddedSteady(env, g);
    BarClusterShown(g1);
    ClusterUpdate(env, g1);
    ClusterSettles(env, OnRangesUpdate(env, g1, ClusterIPs, []));
  }

  lemma ClusterReads(g1: GenState, g2: GenState)
    requires Shown(g1, BarV4) && Shown(g1, BarV6) && Gone(g2, BarV4) && Gone(g2, BarV6)
    ensures CacheValue(g1.client, "/calico/staticroutes/127.0.0.1-32") == "127.0.0.1/32"
    ensures CacheValue(g1.client, "/calico/staticroutesv6/::1-128") == "::1/128"
    ensures CacheValue(g2.client, "/calico/staticroutes/127.0.0.1-32") == ""
    ensures CacheValue(g2.client, "/calico/staticroutesv6/::1-128") == ""
  {
    BarKeys();
  }

  /**
   * foo/bar's service and endpoints added: its cluster routes 127.0.0.1/32
   * and ::1/128 are published. Once the cluster ranges are emptied, a
   * resync withdraws both.
   */
  lemma ClusterRangeScenario(env: Env)
    requires FixtureEnv(env)
    ensures var c1 := BarAdded(env, HandlerFixture()).client;
      && CacheValue(c1, "/calico/staticroutes/127.0.0.1-32") == "127.0.0.1/32"
      && CacheValue(c1, "/calico/staticroutesv6/::1-128") == "::1/128"
    ensures var c2 := ClusterWithdrawn(env, HandlerFixture()).client;
      && CacheValue(c2, "/calico/staticroutes/127.0.0.1-32") == ""
      && CacheValue(c2, "/calico/staticroutesv6/::1-128") == ""
  {
    assert ClusterOutcome(env, HandlerFixture()) by {
      FixtureIsFixtureLike();
      ClusterHolds(env, HandlerFixture());
    }
    ClusterReads(BarAdded(env, HandlerFixture()), ClusterWithdrawn(env, HandlerFixture()));
  }

  // ---------------------------------------------------------------------
  // A configured /32 equal to a service route (routes_test.go 591-650)
  // ---------------------------------------------------------------------

  /** The scenario starts from the fixture services under the fixture ranges. */
  lemma FixtureRangesUnclaimed(lib: NetLib, cfg: RangeConfig)
    requires FixtureParser(lib) && cfg.externalIPNets == FixtureNets
    ensures forall k :: k in FixtureKeySet ==> Single1 !in FixtureRoutes(lib, cfg, k)
    ensures forall k :: k in FixtureKeySet ==> "104.244.42.129/32" !in FixtureRoutes(lib, cfg, k)
    ensures forall k :: k in FixtureKeySet ==> "172.217.3.0/24" !in FixtureRoutes(lib, cfg, k)
  {
    FixtureNetsAdmit(lib);
  }

  /** Under the single range only foo/bar and foo/rem resolve to 45.12.70.5/32. */
  lemma Single1Claimed(lib: NetLib, cfg: RangeConfig)
    requires FixtureParser(lib) && cfg.externalIPNets == Single1Nets
    ensures Single1 in FixtureRoutes(lib, cfg, "foo/bar")
    ensures forall k :: k in FixtureKeySet - {"foo/bar", "foo/rem"} ==> Single1 !in FixtureRoutes(lib, cfg, k)
  {
    SingleRangesAdmit(lib);
  }

  /** The services other than `ks` do not resolve to `r`. */
  lemma ResolvedWithin(env: Env, g: GenState, r: string, ks: set<string>)
    requires FixtureEnv(env) && SubFixture(g)
    requires forall k :: k in FixtureKeySet - ks ==> r !in FixtureRoutes(env.lib, g.client.ranges, k)
    ensures ResolvedBy(env, g, r) <= ks
  {
    forall k | k in ResolvedBy(env, g, r) ensures k in ks {
      FixtureServiceRoutes(env, g, k);
    }
  }

  lemma SingleIsSingleHost(lib: NetLib)
    requires FixtureParser(lib)
    ensures IsSingleHostText(lib, Single1) && !IsSingleHostText(lib, ExternalIPRange1)
    ensures ParseAll(lib, [Single1]) == Some(Single1Nets)
    ensures ParseAll(lib, [ExternalIPRange1]) == Some(Range1Nets)
  {
    ParseSingle(lib, Single1);
    ParseSingle(lib, ExternalIPRange1);
  }

  /** The first resync finds nothing to advertise. */
  lemma DupResync1(env: Env, g: GenState)
    requires FixtureEnv(env) && FixtureLike(g)
    ensures var s1 := Resync(env, g);
      && Steady(s1) && SubFixture(s1) && Owned(s1, Single1) && Gone(s1, Single1)
      && s1.client.ranges == FixtureRanges && Single1 !in s1.adv && s1.svcIndex == g.svcIndex
      && "104.244.42.129/32" !in s1.adv && "172.217.3.0/24" !in s1.adv
  {
    ObservedTextsDashFree();
    FixtureRangesUnclaimed(env.lib, g.client.ranges);
    NoneResolves(env, g, Single1);
    NoneResolves(env, g, "104.244.42.129/32");
    NoneResolves(env, g, "172.217.3.0/24");
    ResyncClaims(env, g);
    ResyncObserved(env, g, Single1);
  }

  /** The single range replaces the fixture's: no reference, nothing published. */
  lemma DupSingle(env: Env, s1: GenState)
    requires FixtureEnv(env) && Steady(s1) && Owned(s1, Single1) && Single1 !in s1.adv
    requires s1.client.ranges == FixtureRanges
    requires "104.244.42.129/32" !in s1.adv && "172.217.3.0/24" !in s1.adv
    ensures var u := OnRangesUpdate(env, s1, ExternalIPs, [Single1]);
      && Steady(u) && Owned(u, Single1) && Gone(u, Single1)
      && u.svcIndex == s1.svcIndex && u.epIndex == s1.epIndex
      && u.client.ranges.externalIPs == [Single1] && u.client.ranges.externalIPNets == Single1Nets
  {
    ObservedTextsDashFree();
    FixtureEntriesDashFree(ExternalIPs);
    SingleIsSingleHost(env.lib);
    assert DashFree([Single1]);
    RangeStep(env, s1, ExternalIPs, [Single1], Single1);
    OwnedMeaning(OnRangesUpdate(env, s1, ExternalIPs, [Single1]), Single1);
  }

  /** A resync under the single range publishes the route, with one reference. */
  lemma DupSettleSingle(env: Env, u: GenState)
    requires FixtureEnv(env) && Steady(u) && SubFixture(u) && "foo/bar" in u.svcIndex
    requires Owned(u, Single1) && u.client.ranges.externalIPNets == Single1Nets
    ensures var s := Resync(env, u);
      && Steady(s) && SubFixture(s) && Owned(s, Single1) && Shown(s, Single1)
      && s.client.ranges == u.client.ranges && s.svcIndex == u.svcIndex
      && Claimants(s.svcRoutes, Single1) <= {"foo/bar", "foo/rem"}
  {
    ObservedTextsDashFree();
    Single1Claimed(env.lib, u.client.ranges);
    SomeResolves(env, u, Single1, "foo/bar");
    ResolvedWithin(env, u, Single1, {"foo/bar", "foo/rem"});
    ResyncClaims(env, u);
    ResyncObserved(env, u, Single1);
  }

  /** 45.12.0.0/16 replaces the single range, which held no reference. */
  lemma DupWiden(env: Env, s: GenState)
    requires FixtureEnv(env) && Steady(s) && Owned(s, Single1)
    requires s.client.ranges.externalIPs == [Single1]
    ensures var u := OnRangesUpdate(env, s, ExternalIPs, [ExternalIPRange1]);
      && Steady(u) && Owned(u, Single1)
      && u.svcIndex == s.svcIndex && u.epIndex == s.epIndex
      && u.client.ranges.externalIPs == [ExternalIPRange1] && u.client.ranges.externalIPNets == Range1Nets
  {
    ObservedTextsDashFree();
    SingleIsSingleHost(env.lib);
    assert DashFree([Single1]);
    RangeStep(env, s, ExternalIPs, [ExternalIPRange1], Single1);
  }

  /** A resync under 45.12.0.0/16 keeps the route published once. */
  lemma DupSettleWide(env: Env, u: GenState)
    requires FixtureEnv(env) && Steady(u) && SubFixture(u) && "foo/bar" in u.svcIndex
    requires Owned(u, Single1) && u.client.ranges.externalIPNets == Range1Nets
    ensures var s := Resync(env, u);
      && Steady(s) && SubFixture(s) && Owned(s, Single1) && Shown(s, Single1)
      && s.client.ranges == u.client.ranges && ExternalIPRange1 !in s.adv
  {
    ObservedTextsDashFree();
    Range1Resolution(env, u);
    ResyncClaims(env, u);
    ResyncObserved(env, u, Single1);
  }

  /** The single range comes back; the dropped 45.12.0.0/16 is not an advertised route. */
  lemma DupNarrow(env: Env, s: GenState)
    requires FixtureEnv(env) && Steady(s) && Owned(s, Single1)
    requires s.client.ranges.externalIPs == [ExternalIPRange1] && ExternalIPRange1 !in s.adv
    ensures var u := OnRangesUpdate(env, s, ExternalIPs, [Single1]);
      && Steady(u) && Owned(u, Single1)
      && u.svcIndex == s.svcIndex && u.epIndex == s.epIndex
      && u.client.ranges.externalIPs == [Single1] && u.client.ranges.externalIPNets == Single1Nets
  {
    ObservedTextsDashFree();
    SingleIsSingleHost(env.lib);
    assert DashFree([Single1]);
    RangeStep(env, s, ExternalIPs, [Single1], Single1);
  }

  /** Deleting foo/bar and foo/rem, the route's only claimants, withdraws it. */
  lemma DupDelete(s: GenState)
    requires Steady(s) && Owned(s, Single1) && Claimants(s.svcRoutes, Single1) <= {"foo/bar", "foo/rem"}
    ensures var d := OnSvcDelete(OnSvcDelete(s, Svc1), Svc2);
      && Steady(d) && Owned(d, Single1) && Gone(d, Single1) && Single1 !in d.adv
      && d.client.ranges == s.client.ranges
  {
    ObservedTextsDashFree();
    FixtureKeys();
    var d1 := OnSvcDelete(s, Svc1);
    DeleteObserved(s, Svc1.meta, Single1);
    DeleteObserved(d1, Svc2.meta, Single1);
    var d := OnSvcDelete(d1, Svc2);
    assert Claimants(d.svcRoutes, Single1) == {};
    assert AdvCount(d, Single1) == 0;
    OwnedMeaning(d, Single1);
  }

  /** Clearing the ranges leaves the withdrawn route without cache or count entry. */
  lemma DupClear(env: Env, d: GenState)
    requires FixtureEnv(env) && Steady(d) && Owned(d, Single1) && Single1 !in d.adv
    requires d.client.ranges.externalIPs == [Single1]
    ensures Gone(OnRangesUpdate(env, d, ExternalIPs, []), Single1)
  {
    ObservedTextsDashFree();
    SingleIsSingleHost(env.lib);
    assert DashFree([Single1]) && DashFree([]);
    assert ParseAll(env.lib, []) == Some([]);
    RangeStep(env, d, ExternalIPs, [], Single1);
    OwnedMeaning(OnRangesUpdate(env, d, ExternalIPs, []), Single1);
  }

  /** onExternalIPsUpdate(next) and a resync. */
  function ExternalResync(env: Env, s: GenState, next: seq<string>): GenState {
    Resync(env, OnRangesUpdate(env, s, ExternalIPs, next))
  }

  /** The scenario's stages: a resync; the single range configured; a resync;
      45.12.0.0/16 and a resync; the single range again and a resync; both
      services that claim the route deleted; the ranges cleared. */
  function StartResynced(env: Env, g: GenState): GenState {
    Resync(env, g)
  }

  function SingleSet(env: Env, g: GenState): GenState {
    OnRangesUpdate(env, StartResynced(env, g), ExternalIPs, [Single1])
  }

  function SingleResynced(env: Env, g: GenState): GenState {
    Resync(env, SingleSet(env, g))
  }

  function WideResynced(env: Env, g: GenState): GenState {
    ExternalResync(env, SingleResynced(env, g), [ExternalIPRange1])
  }

  function NarrowResynced(env: Env, g: GenState): GenState {
    ExternalResync(env, WideResynced(env, g), [Single1])
  }

  function BothDeleted(env: Env, g: GenState): GenState {
    OnSvcDelete(OnSvcDelete(NarrowResynced(env, g), Svc1), Svc2)
  }

  function RangesCleared(env: Env, g: GenState): GenState {
    OnRangesUpdate(env, BothDeleted(env, g), ExternalIPs, [])
  }

  predicate DupOutcome(env: Env, g: GenState) {
    && Gone(StartResynced(env, g), Single1) && Gone(SingleSet(env, g), Single1)
    && Shown(SingleResynced(env, g), Single1) && Shown(WideResynced(env, g), Single1)
    && Shown(NarrowResynced(env, g), Single1) && Gone(BothDeleted(env, g), Single1)
    && Gone(RangesCleared(env, g), Single1)
  }

  /** The first resync, and the single range configured. */
  lemma DupOpening(env: Env, g: GenState)
    requires FixtureEnv(env) && FixtureLike(g) && "foo/bar" in g.svcIndex
    ensures Gone(StartResynced(env, g), Single1)
    ensures var u := SingleSet(env, g);
      && Gone(u, Single1) && Steady(u) && SubFixture(u) && "foo/bar" in u.svcIndex
      && Owned(u, Single1) && u.client.ranges.externalIPNets == Single1Nets
      && u.client.ranges.externalIPs == [Single1]
  {
    DupResync1(env, g);
    DupSingle(env, StartResynced(env, g));
  }

  /** The stages up to the first resync under the single range. */
  lemma DupFirstStages(env: Env, g: GenState)
    requires FixtureEnv(env) && FixtureLike(g) && "foo/bar" in g.svcIndex
    ensures Gone(StartResynced(env, g), Single1) && Gone(SingleSet(env, g), Single1)
    ensures var s := SingleResynced(env, g);
      && Shown(s, Single1) && Steady(s) && SubFixture(s) && "foo/bar" in s.svcIndex
      && Owned(s, Single1) && s.client.ranges.externalIPs == [Single1]
  {
    DupOpening(env, g);
    DupSettleSingle(env, SingleSet(env, g));
  }

  /** The stages through the wide range and back to the single one. */
  lemma DupMiddleStages(env: Env, s3: GenState)
    requires FixtureEnv(env) && Steady(s3) && SubFixture(s3) && "foo/bar" in s3.svcIndex
    requires Owned(s3, Single1) && s3.client.ranges.externalIPs == [Single1]
    ensures Shown(ExternalResync(env, s3, [ExternalIPRange1]), Single1)
    ensures var s5 := ExternalResync(env, ExternalResync(env, s3, [ExternalIPRange1]), [Single1]);
      && Shown(s5, Single1) && Steady(s5) && Owned(s5, Single1)
      && Claimants(s5.svcRoutes, Single1) <= {"foo/bar", "foo/rem"}
      && s5.client.ranges.externalIPs == [Single1]
  {
    var u4 := OnRangesUpdate(env, s3, ExternalIPs, [ExternalIPRange1]);
    DupWiden(env, s3);
    DupSettleWide(env, u4);
    var s4 := Resync(env, u4);
    ResyncClaims(env, u4);
    DupNarrow(env, s4);
    DupSettleSingle(env, OnRangesUpdate(env, s4, ExternalIPs, [Single1]));
  }

  /** The last two stages. */
  lemma DupLastStages(env: Env, s5: GenState)
    requires FixtureEnv(env) && Steady(s5) && Owned(s5, Single1)
    requires Claimants(s5.svcRoutes, Single1) <= {"foo/bar", "foo/rem"}
    requires s5.client.ranges.externalIPs == [Single1]
    ensures Gone(OnSvcDelete(OnSvcDelete(s5, Svc1), Svc2), Single1)
    ensures Gone(OnRangesUpdate(env, OnSvcDelete(OnSvcDelete(s5, Svc1), Svc2), ExternalIPs, []), Single1)
  {
    DupDelete(s5);
    DupClear(env, OnSvcDelete(OnSvcDelete(s5, Svc1), Svc2));
  }

  lemma DupHolds(env: Env, g: GenState)
    requires FixtureEnv(env) && FixtureLike(g) && "foo/bar" in g.svcIndex
    ensures DupOutcome(env, g)
  {
    DupFirstStages(env, g);
    DupMiddleStages(env, SingleResynced(env, g));
    DupLastStages(env, NarrowResynced(env, g));
  }

  /** The scenario's reads of the cache and the reference counts. */
  lemma DupReads(env: Env, g: GenState)
    requires DupOutcome(env, g)
    ensures CacheValue(StartResynced(env, g).client, Single1Key) == ""
    ensures Count(StartResynced(env, g).client, Single1Key) == 0
    ensures CacheValue(SingleSet(env, g).client, Single1Key) == ""
    ensures Count(SingleSet(env, g).client, Single1Key) == 0
    ensures CacheValue(SingleResynced(env, g).client, Single1Key) == ExternalIP1 + "/32"
    ensures Count(SingleResynced(env, g).client, Single1Key) == 1
    ensures CacheValue(WideResynced(env, g).client, Single1Key) == ExternalIP1 + "/32"
    ensures Count(WideResynced(env, g).client, Single1Key) == 1
    ensures Count(NarrowResynced(env, g).client, Single1Key) == 1
    ensures CacheValue(BothDeleted(env, g).client, Single1Key) == ""
    ensures Count(BothDeleted(env, g).client, Single1Key) == 0
    ensures Single1Key !in RangesCleared(env, g).client.cache
    ensures Single1Key !in RangesCleared(env, g).client.programmed
  {
    Single1KeyValue();
    DupStageReads(StartResynced(env, g), SingleSet(env, g), SingleResynced(env, g), WideResynced(env, g),
                  NarrowResynced(env, g), BothDeleted(env, g), RangesCleared(env, g), Single1, Single1Key);
  }

  /** The reads of the duplicate-prefix scenario's seven stages. */
  lemma DupStageReads(s1: GenState, s2: GenState, s3: GenState, s4: GenState, s5: GenState, s6: GenState,
                      s7: GenState, r: string, key: string)
    requires StaticRouteKey(r) == key
    requires Gone(s1, r) && Gone(s2, r) && Shown(s3, r) && Shown(s4, r) && Shown(s5, r)
    requires Gone(s6, r) && Gone(s7, r)
    ensures CacheValue(s1.client, key) == "" && Count(s1.client, key) == 0
    ensures CacheValue(s2.client, key) == "" && Count(s2.client, key) == 0
    ensures CacheValue(s3.client, key) == r && Count(s3.client, key) == 1
    ensures CacheValue(s4.client, key) == r && Count(s4.client, key) == 1
    ensures Count(s5.client, key) == 1
    ensures CacheValue(s6.client, key) == "" && Count(s6.client, key) == 0
    ensures key !in s7.client.cache && key !in s7.client.programmed
  {
    GoneReadAt(s1, r, key);
    GoneReadAt(s2, r, key);
    ShownReadAt(s3, r, key);
    ShownReadAt(s4, r, key);
    ShownReadAt(s5, r, key);
    GoneReadAt(s6, r, key);
    GoneReadAt(s7, r, key);
  }

  /**
   * A configured 45.12.70.5/32 that equals a service route adds no reference
   * of its own: nothing is published until a resync advertises the route,
   * which then holds exactly one reference whether the range is the /32 or
   * 45.12.0.0/16. Deleting both services that claim the route withdraws it,
   * and clearing the ranges leaves neither a cache nor a count entry.
   */
  lemma DuplicatePrefixScenario(env: Env)
    requires FixtureEnv(env)
    ensures Single1Key == "/calico/staticroutes/" + ExternalIP1 + "-32"
    ensures CacheValue(StartResynced(env, HandlerFixture()).client, Single1Key) == ""
    ensures Count(StartResynced(env, HandlerFixture()).client, Single1Key) == 0
    ensures CacheValue(SingleSet(env, HandlerFixture()).client, Single1Key) == ""
    ensures Count(SingleSet(env, HandlerFixture()).client, Single1Key) == 0
    ensures CacheValue(SingleResynced(env, HandlerFixture()).client, Single1Key) == ExternalIP1 + "/32"
    ensures Count(SingleResynced(env, HandlerFixture()).client, Single1Key) == 1
    ensures CacheValue(WideResynced(env, HandlerFixture()).client, Single1Key) == ExternalIP1 + "/32"
    ensures Count(WideResynced(env, HandlerFixture()).client, Single1Key) == 1
    ensures Count(NarrowResynced(env, HandlerFixture()).client, Single1Key) == 1
    ensures CacheValue(BothDeleted(env, HandlerFixture()).client, Single1Key) == ""
    ensures Count(BothDeleted(env, HandlerFixture()).client, Single1Key) == 0
    ensures Single1Key !in RangesCleared(env, HandlerFixture()).client.cache
    ensures Single1Key !in RangesCleared(env, HandlerFixture()).client.programmed
  {
    assert DupOutcome(env, HandlerFixture()) by {
      FixtureIsFixtureLike();
      DupHolds(env, HandlerFixture());
    }
    DupReads(env, HandlerFixture());
  }

  // ---------------------------------------------------------------------
  // A configured /32 equal to one service's address (routes_test.go 655-756)
  // ---------------------------------------------------------------------

  const LBSingle: string := "172.217.4.10/32"
  const Single3: string := "45.12.70.7/32"

  lemma SoloTexts(lib: NetLib)
    requires FixtureParser(lib)
    ensures '-' !in LBSingle && '-' !in Single3 && DashFree([LBSingle]) && DashFree([Single3]) && DashFree([])
    ensures LBSingle == LoadBalancerIP1 + "/32" && Single3 == ExternalIP3 + "/32"
    ensures IsSingleHostText(lib, LBSingle) && IsSingleHostText(lib, Single3)
    ensures ParseAll(lib, [LBSingle]) == Some(SingleLBNets) && ParseAll(lib, [Single3]) == Some(Single3Nets)
    ensures ParseAll(lib, []) == Some([])
  {
    ParseSingle(lib, LBSingle);
    ParseSingle(lib, Single3);
  }

  /** Only foo/lb can resolve to 172.217.4.10/32, and it does exactly under the /32. */
  lemma LbOnlyRoute(lib: NetLib, cfg: RangeConfig)
    requires FixtureParser(lib)
    ensures forall k :: k in FixtureKeySet - {"foo/lb"} ==> LBSingle !in FixtureRoutes(lib, cfg, k)
    ensures cfg.loadBalancerIPNets == [] ==> LBSingle !in FixtureRoutes(lib, cfg, "foo/lb")
    ensures cfg.loadBalancerIPNets == SingleLBNets ==> LBSingle in FixtureRoutes(lib, cfg, "foo/lb")
  {
    SingleRangesAdmit(lib);
  }

  /** Only foo/ext can resolve to 45.12.70.7/32, and it does exactly under the /32. */
  lemma ExtOnlyRoute(lib: NetLib, cfg: RangeConfig)
    requires FixtureParser(lib)
    ensures forall k :: k in FixtureKeySet - {"foo/ext"} ==> Single3 !in FixtureRoutes(lib, cfg, k)
    ensures cfg.externalIPNets == [] ==> Single3 !in FixtureRoutes(lib, cfg, "foo/ext")
    ensures cfg.externalIPNets == Single3Nets ==> Single3 in FixtureRoutes(lib, cfg, "foo/ext")
  {
    SingleRangesAdmit(lib);
  }

  /** A resync while the only service that could claim `r` is out of the stores. */
  lemma SoloUnclaimed(env: Env, g: GenState, r: string, k: string)
    requires FixtureEnv(env) && Steady(g) && SubFixture(g) && '-' !in r && Owned(g, r)
    requires k !in g.svcIndex || r !in FixtureRoutes(env.lib, g.client.ranges, k)
    requires forall k' :: k' in FixtureKeySet - {k} ==> r !in FixtureRoutes(env.lib, g.client.ranges, k')
    ensures var s := Resync(env, g);
      && Steady(s) && SubFixture(s) && Owned(s, r) && Gone(s, r) && r !in s.adv
      && s.client.ranges == g.client.ranges && s.svcIndex == g.svcIndex && s.epIndex == g.epIndex
  {
    ResolvedWithin(env, g, r, {k});
    if k in g.svcIndex {
      FixtureServiceRoutes(env, g, k);
    }
    assert ResolvedBy(env, g, r) == {};
    ResyncClaims(env, g);
    ResyncObserved(env, g, r);
  }

  /** A resync once the service that claims `r` is back in the stores. */
  lemma SoloClaimed(env: Env, g: GenState, r: string, k: string)
    requires FixtureEnv(env) && Steady(g) && SubFixture(g) && '-' !in r && Owned(g, r)
    requires k in g.svcIndex && r in FixtureRoutes(env.lib, g.client.ranges, k)
    ensures var s := Resync(env, g);
      && Steady(s) && SubFixture(s) && Owned(s, r) && Shown(s, r)
      && s.client.ranges == g.client.ranges && s.svcIndex == g.svcIndex && s.epIndex == g.epIndex
  {
    SomeResolves(env, g, r, k);
    ResyncClaims(env, g);
    ResyncObserved(env, g, r);
  }

  /** One range list set to `next`, with route `r` a single host and no
      dropped range that holds a reference advertised. */
  lemma SoloRanges(env: Env, g: GenState, cat: Category, next: seq<string>, r: string)
    requires FixtureEnv(env) && Steady(g) && SubFixture(g) && '-' !in r && Owned(g, r)
    requires ParseAll(env.lib, next).Some? && DashFree(Entries(g.client.ranges, cat)) && DashFree(next)
    requires IsSingleHostText(env.lib, r)
    requires forall x :: x in Entries(g.client.ranges, cat) && x !in next && !IsSingleHostText(env.lib, x) ==> x !in g.adv
    ensures var u := OnRangesUpdate(env, g, cat, next);
      && Steady(u) && SubFixture(u) && Owned(u, r)
      && u.svcIndex == g.svcIndex && u.epIndex == g.epIndex
      && u.client.ranges == WithEntries(g.client.ranges, cat, next, ParseAll(env.lib, next).value)
  {
    RangeStep(env, g, cat, next, r);
  }

  /** Indexing more objects keeps the scenario facts: they depend on the
      indexes only through the dash-free, correctly keyed services. */
  lemma SteadyReindexed(g: GenState, h: GenState, r: string)
    requires Steady(g) && Owned(g, r)
    requires h.client == g.client && h.svcRoutes == g.svcRoutes && h.adv == g.adv
    requires IndexDashFree(h) && IndexKeyed(h.svcIndex)
    requires g.svcIndex.Keys <= h.svcIndex.Keys && g.epIndex.Keys <= h.epIndex.Keys
    ensures Steady(h) && Owned(h, r)
  {
    assert forall x :: AdvCount(h, x) == AdvCount(g, x);
    assert forall k :: KeyClaimants(h.adv, k) == KeyClaimants(g.adv, k);
  }

  /** The indexes after adding one service and its endpoints under `k`. */
  lemma SubFixtureAdded(g: GenState, k: string, svc: Service, ep: Endpoints)
    requires SubFixture(g) && k in FixtureKeySet && MetaKey(svc.meta) == k && MetaKey(ep.meta) == k
    requires k == "foo/bar" ==> svc == Svc1 && ep == Ep1
    requires k == "foo/rem" ==> svc == Svc2 && ep == Ep2
    requires k == "foo/lb" ==> svc == Svc3 && ep == Ep3
    requires k == "foo/ext" ==> svc == Svc4 && ep == Ep4
    ensures SubFixture(IndexService(IndexEndpoints(g, ep), svc))
  {
  }

  /** Indexing a dash-free service under its own key keeps both index facts. */
  lemma IndexedKeyed(g: GenState, svc: Service, ep: Endpoints)
    requires IndexDashFree(g) && IndexKeyed(g.svcIndex) && TextsDashFree(svc)
    ensures IndexDashFree(IndexService(IndexEndpoints(g, ep), svc))
    ensures IndexKeyed(IndexService(IndexEndpoints(g, ep), svc).svcIndex)
  {
  }

  /** Putting foo/lb back into the informer stores. */
  lemma LbReindex(g: GenState)
    requires Steady(g) && SubFixture(g) && Owned(g, LBSingle)
    ensures var h := IndexService(IndexEndpoints(g, Ep3), Svc3);
      && Steady(h) && SubFixture(h) && Owned(h, LBSingle) && "foo/lb" in h.svcIndex
      && h.client == g.client
  {
    FixtureKeys();
    FixtureTextsDashFree();
    var h := IndexService(IndexEndpoints(g, Ep3), Svc3);
    SubFixtureAdded(g, "foo/lb", Svc3, Ep3);
    IndexedKeyed(g, Svc3, Ep3);
    SteadyReindexed(g, h, LBSingle);
  }

  /** Putting foo/ext back into the informer stores. */
  lemma ExtReindex(g: GenState)
    requires Steady(g) && SubFixture(g) && Owned(g, Single3)
    ensures var h := IndexService(IndexEndpoints(g, Ep4), Svc4);
      && Steady(h) && SubFixture(h) && Owned(h, Single3) && "foo/ext" in h.svcIndex
      && h.client == g.client
  {
    FixtureKeys();
    FixtureTextsDashFree();
    var h := IndexService(IndexEndpoints(g, Ep4), Svc4);
    SubFixtureAdded(g, "foo/ext", Svc4, Ep4);
    IndexedKeyed(g, Svc4, Ep4);
    SteadyReindexed(g, h, Single3);
  }

  /** The stages: a resync; the /32 configured and a resync; the service and
      its endpoints added back and a resync; the range list cleared and a resync. */
  function SoloSet(env: Env, g: GenState, cat: Category, r: string): GenState {
    Resync(env, OnRangesUpdate(env, Resync(env, g), cat, [r]))
  }

  function LbReadded(env: Env, g: GenState): GenState {
    Resync(env, IndexService(IndexEndpoints(SoloSet(env, g, LoadBalancerIPs, LBSingle), Ep3), Svc3))
  }

  function LbCleared(env: Env, g: GenState): GenState {
    Resync(env, OnRangesUpdate(env, LbReadded(env, g), LoadBalancerIPs, []))
  }

  function ExtReadded(env: Env, g: GenState): GenState {
    Resync(env, IndexService(IndexEndpoints(SoloSet(env, g, ExternalIPs, Single3), Ep4), Svc4))
  }

  function ExtCleared(env: Env, g: GenState): GenState {
    ExternalResync(env, ExtReadded(env, g), [])
  }

  predicate LbOutcome(env: Env, g: GenState) {
    && Gone(StartResynced(env, g), LBSingle) && Gone(SoloSet(env, g, LoadBalancerIPs, LBSingle), LBSingle)
    && Shown(LbReadded(env, g), LBSingle) && Gone(LbCleared(env, g), LBSingle)
  }

  predicate ExtOutcome(env: Env, g: GenState) {
    && Gone(StartResynced(env, g), Single3) && Gone(SoloSet(env, g, ExternalIPs, Single3), Single3)
    && Shown(ExtReadded(env, g), Single3) && Gone(ExtCleared(env, g), Single3)
  }

  /** The first resync with foo/lb out of the stores. */
  lemma LbResync1(env: Env, g: GenState)
    requires FixtureEnv(env) && FixtureLike(g) && "foo/lb" !in g.svcIndex
    ensures var s := Resync(env, g);
      && Gone(s, LBSingle) && Steady(s) && SubFixture(s) && Owned(s, LBSingle)
      && s.client.ranges == FixtureRanges && s.svcIndex == g.svcIndex
  {
    SoloTexts(env.lib);
    LbOnlyRoute(env.lib, g.client.ranges);
    SoloUnclaimed(env, g, LBSingle, "foo/lb");
  }

  /** The /32 replaces the empty LoadBalancer list. */
  lemma LbSet(env: Env, s: GenState)
    requires FixtureEnv(env) && Steady(s) && SubFixture(s) && Owned(s, LBSingle)
    requires s.client.ranges == FixtureRanges
    ensures var u := OnRangesUpdate(env, s, LoadBalancerIPs, [LBSingle]);
      && Steady(u) && SubFixture(u) && Owned(u, LBSingle) && u.svcIndex == s.svcIndex
      && u.client.ranges.loadBalancerIPs == [LBSingle] && u.client.ranges.loadBalancerIPNets == SingleLBNets
  {
    SoloTexts(env.lib);
    FixtureEntriesDashFree(LoadBalancerIPs);
    SoloRanges(env, s, LoadBalancerIPs, [LBSingle], LBSingle);
  }

  /** A resync under the /32 while foo/lb is still out of the stores. */
  lemma LbSettleUnindexed(env: Env, u: GenState)
    requires FixtureEnv(env) && Steady(u) && SubFixture(u) && Owned(u, LBSingle) && "foo/lb" !in u.svcIndex
    requires u.client.ranges.loadBalancerIPs == [LBSingle] && u.client.ranges.loadBalancerIPNets == SingleLBNets
    ensures var s := Resync(env, u);
      && Gone(s, LBSingle) && Steady(s) && SubFixture(s) && Owned(s, LBSingle)
      && s.client.ranges.loadBalancerIPs == [LBSingle] && s.client.ranges.loadBalancerIPNets == SingleLBNets
  {
    SoloTexts(env.lib);
    LbOnlyRoute(env.lib, u.client.ranges);
    SoloUnclaimed(env, u, LBSingle, "foo/lb");
  }

  /** foo/lb added back, then a resync under the /32. */
  lemma LbSettleIndexed(env: Env, s: GenState)
    requires FixtureEnv(env) && Steady(s) && SubFixture(s) && Owned(s, LBSingle)
    requires s.client.ranges.loadBalancerIPs == [LBSingle] && s.client.ranges.loadBalancerIPNets == SingleLBNets
    ensures var s3 := Resync(env, IndexService(IndexEndpoints(s, Ep3), Svc3));
      && Shown(s3, LBSingle) && Steady(s3) && SubFixture(s3) && Owned(s3, LBSingle)
      && s3.client.ranges.loadBalancerIPs == [LBSingle]
  {
    SoloTexts(env.lib);
    LbReindex(s);
    var h := IndexService(IndexEndpoints(s, Ep3), Svc3);
    LbOnlyRoute(env.lib, h.client.ranges);
    SoloClaimed(env, h, LBSingle, "foo/lb");
  }

  /** The LoadBalancer list cleared. */
  lemma LbClear(env: Env, s: GenState)
    requires FixtureEnv(env) && Steady(s) && SubFixture(s) && Owned(s, LBSingle)
    requires s.client.ranges.loadBalancerIPs == [LBSingle]
    ensures var u := OnRangesUpdate(env, s, LoadBalancerIPs, []);
      && Steady(u) && SubFixture(u) && Owned(u, LBSingle) && u.client.ranges.loadBalancerIPNets == []
  {
    SoloTexts(env.lib);
    SoloRanges(env, s, LoadBalancerIPs, [], LBSingle);
  }

  /** A resync with no LoadBalancer range withdraws the route. */
  lemma LbSettleCleared(env: Env, u: GenState)
    requires FixtureEnv(env) && Steady(u) && SubFixture(u) && Owned(u, LBSingle)
    requires u.client.ranges.loadBalancerIPNets == []
    ensures Gone(Resync(env, u), LBSingle)
  {
    SoloTexts(env.lib);
    LbOnlyRoute(env.lib, u.client.ranges);
    SoloUnclaimed(env, u, LBSingle, "foo/lb");
  }

  /** The first two stages with foo/lb out of the stores. */
  lemma LbOpening(env: Env, g: GenState)
    requires FixtureEnv(env) && FixtureLike(g) && "foo/lb" !in g.svcIndex
    ensures Gone(StartResynced(env, g), LBSingle)
    ensures var s := SoloSet(env, g, LoadBalancerIPs, LBSingle);
      && Gone(s, LBSingle) && Steady(s) && SubFixture(s) && Owned(s, LBSingle)
      && s.client.ranges.loadBalancerIPs == [LBSingle] && s.client.ranges.loadBalancerIPNets == SingleLBNets
  {
    LbResync1(env, g);
    LbSet(env, Resync(env, g));
    LbSettleUnindexed(env, OnRangesUpdate(env, Resync(env, g), LoadBalancerIPs, [LBSingle]));
  }

  /** The last two stages, from the state after the /32 was configured. */
  lemma LbClosing(env: Env, s: GenState)
    requires FixtureEnv(env) && Steady(s) && SubFixture(s) && Owned(s, LBSingle)
    requires s.client.ranges.loadBalancerIPs == [LBSingle] && s.client.ranges.loadBalancerIPNets == SingleLBNets
    ensures var s3 := Resync(env, IndexService(IndexEndpoints(s, Ep3), Svc3));
      && Shown(s3, LBSingle)
      && Gone(Resync(env, OnRangesUpdate(env, s3, LoadBalancerIPs, [])), LBSingle)
  {
    LbSettleIndexed(env, s);
    var s3 := Resync(env, IndexService(IndexEndpoints(s, Ep3), Svc3));
    LbClear(env, s3);
    LbSettleCleared(env, OnRangesUpdate(env, s3, LoadBalancerIPs, []));
  }

  lemma LbHolds(env: Env, g: GenState)
    requires FixtureEnv(env) && FixtureLike(g) && "foo/lb" !in g.svcIndex
    ensures LbOutcome(env, g)
  {
    LbOpening(env, g);
    LbClosing(env, SoloSet(env, g, LoadBalancerIPs, LBSingle));
  }

  /** The first resync with foo/ext out of the stores: neither its route nor
      the fixture's external ranges are advertised. */
  lemma ExtResync1(env: Env, g: GenState)
    requires FixtureEnv(env) && FixtureLike(g) && "foo/ext" !in g.svcIndex
    ensures var s := Resync(env, g);
      && Gone(s, Single3) && Steady(s) && SubFixture(s) && Owned(s, Single3)
      && s.client.ranges == FixtureRanges && s.svcIndex == g.svcIndex
      && "104.244.42.129/32" !in s.adv && "172.217.3.0/24" !in s.adv
  {
    SoloTexts(env.lib);
    ExtOnlyRoute(env.lib, g.client.ranges);
    SoloUnclaimed(env, g, Single3, "foo/ext");
    FixtureRangesUnclaimed(env.lib, g.client.ranges);
    NoneResolves(env, g, "104.244.42.129/32");
    NoneResolves(env, g, "172.217.3.0/24");
    ResyncClaims(env, g);
  }

  /** The /32 replaces the fixture's two external ranges. */
  lemma ExtSet(env: Env, s: GenState)
    requires FixtureEnv(env) && Steady(s) && SubFixture(s) && Owned(s, Single3)
    requires s.client.ranges == FixtureRanges
    requires "104.244.42.129/32" !in s.adv && "172.217.3.0/24" !in s.adv
    ensures var u := OnRangesUpdate(env, s, ExternalIPs, [Single3]);
      && Steady(u) && SubFixture(u) && Owned(u, Single3) && u.svcIndex == s.svcIndex
      && u.client.ranges.externalIPs == [Single3] && u.client.ranges.externalIPNets == Single3Nets
  {
    SoloTexts(env.lib);
    FixtureEntriesDashFree(ExternalIPs);
    SoloRanges(env, s, ExternalIPs, [Single3], Single3);
  }

  /** A resync under the /32 while foo/ext is still out of the stores. */
  lemma ExtSettleUnindexed(env: Env, u: GenState)
    requires FixtureEnv(env) && Steady(u) && SubFixture(u) && Owned(u, Single3) && "foo/ext" !in u.svcIndex
    requires u.client.ranges.externalIPs == [Single3] && u.client.ranges.externalIPNets == Single3Nets
    ensures var s := Resync(env, u);
      && Gone(s, Single3) && Steady(s) && SubFixture(s) && Owned(s, Single3)
      && s.client.ranges.externalIPs == [Single3] && s.client.ranges.externalIPNets == Single3Nets
  {
    SoloTexts(env.lib);
    ExtOnlyRoute(env.lib, u.client.ranges);
    SoloUnclaimed(env, u, Single3, "foo/ext");
  }

  /** foo/ext added back, then a resync under the /32. */
  lemma ExtSettleIndexed(env: Env, s: GenState)
    requires FixtureEnv(env) && Steady(s) && SubFixture(s) && Owned(s, Single3)
    requires s.client.ranges.externalIPs == [Single3] && s.client.ranges.externalIPNets == Single3Nets
    ensures var s3 := Resync(env, IndexService(IndexEndpoints(s, Ep4), Svc4));
      && Shown(s3, Single3) && Steady(s3) && SubFixture(s3) && Owned(s3, Single3)
      && s3.client.ranges.externalIPs == [Single3]
  {
    SoloTexts(env.lib);
    ExtReindex(s);
    var h := IndexService(IndexEndpoints(s, Ep4), Svc4);
    ExtOnlyRoute(env.lib, h.client.ranges);
    SoloClaimed(env, h, Single3, "foo/ext");
  }

  /** The external list cleared. */
  lemma ExtClear(env: Env, s: GenState)
    requires FixtureEnv(env) && Steady(s) && SubFixture(s) && Owned(s, Single3)
    requires s.client.ranges.externalIPs == [Single3]
    ensures var u := OnRangesUpdate(env, s, ExternalIPs, []);
      && Steady(u) && SubFixture(u) && Owned(u, Single3) && u.client.ranges.externalIPNets == []
  {
    SoloTexts(env.lib);
    SoloRanges(env, s, ExternalIPs, [], Single3);
  }

  /** A resync with no external range withdraws the route. */
  lemma ExtSettleCleared(env: Env, u: GenState)
    requires FixtureEnv(env) && Steady(u) && SubFixture(u) && Owned(u, Single3)
    requires u.client.ranges.externalIPNets == []
    ensures Gone(Resync(env, u), Single3)
  {
    SoloTexts(env.lib);
    ExtOnlyRoute(env.lib, u.client.ranges);
    SoloUnclaimed(env, u, Single3, "foo/ext");
  }

  /** The first two stages with foo/ext out of the stores. */
  lemma ExtOpening(env: Env, g: GenState)
    requires FixtureEnv(env) && FixtureLike(g) && "foo/ext" !in g.svcIndex
    ensures Gone(StartResynced(env, g), Single3)
    ensures var s := SoloSet(env, g, ExternalIPs, Single3);
      && Gone(s, Single3) && Steady(s) && SubFixture(s) && Owned(s, Single3)
      && s.client.ranges.externalIPs == [Single3] && s.client.ranges.externalIPNets == Single3Nets
  {
    ExtResync1(env, g);
    ExtSet(env, Resync(env, g));
    ExtSettleUnindexed(env, OnRangesUpdate(env, Resync(env, g), ExternalIPs, [Single3]));
  }

  /** The last two stages, from the state after the /32 was configured. */
  lemma ExtClosing(env: Env, s: GenState)
    requires FixtureEnv(env) && Steady(s) && SubFixture(s) && Owned(s, Single3)
    requires s.client.ranges.externalIPs == [Single3] && s.client.ranges.externalIPNets == Single3Nets
    ensures var s3 := Resync(env, IndexService(IndexEndpoints(s, Ep4), Svc4));
      && Shown(s3, Single3) && Gone(ExternalResync(env, s3, []), Single3)
  {
    ExtSettleIndexed(env, s);
    var s3 := Resync(env, IndexService(IndexEndpoints(s, Ep4), Svc4));
    ExtClear(env, s3);
    ExtSettleCleared(env, OnRangesUpdate(env, s3, ExternalIPs, []));
  }

  lemma ExtHolds(env: Env, g: GenState)
    requires FixtureEnv(env) && FixtureLike(g) && "foo/ext" !in g.svcIndex
    ensures ExtOutcome(env, g)
  {
    ExtOpening(env, g);
    ExtClosing(env, SoloSet(env, g, ExternalIPs, Single3));
  }

  /** The store keys the two scenarios build. */
  const LBSingleKey: string := "/calico/staticroutes/" + LoadBalancerIP1 + "-32"
  const Single3Key: string := "/calico/staticroutes/" + ExternalIP3 + "-32"

  lemma SoloKeys()
    ensures StaticRouteKey(LBSingle) == LBSingleKey && StaticRouteKey(Single3) == Single3Key
    ensures LBSingle == LoadBalancerIP1 + "/32" && Single3 == ExternalIP3 + "/32"
  {
    HostRouteKeyText(LoadBalancerIP1);
    HostRouteKeyText(ExternalIP3);
    assert LBSingle == LoadBalancerIP1 + "/32" && Single3 == ExternalIP3 + "/32";
  }

  /** What a Go map read and a reference-count read return for a gone route. */
  lemma GoneReadAt(s: GenState, r: string, key: string)
    requires StaticRouteKey(r) == key && Gone(s, r)
    ensures CacheValue(s.client, key) == "" && Count(s.client, key) == 0
    ensures key !in s.client.cache && key !in s.client.programmed
  {
  }

  /** ... and for a shown one. */
  lemma ShownReadAt(s: GenState, r: string, key: string)
    requires StaticRouteKey(r) == key && Shown(s, r)
    ensures CacheValue(s.client, key) == r && Count(s.client, key) == 1
  {
  }

  /** The reads of a /32 scenario's four stages: gone, gone, shown, gone. */
  lemma SoloReads(s1: GenState, s2: GenState, s3: GenState, s4: GenState, r: string, key: string)
    requires StaticRouteKey(r) == key
    requires Gone(s1, r) && Gone(s2, r) && Shown(s3, r) && Gone(s4, r)
    ensures CacheValue(s1.client, key) == "" && Count(s1.client, key) == 0
    ensures CacheValue(s2.client, key) == "" && Count(s2.client, key) == 0
    ensures CacheValue(s3.client, key) == r && Count(s3.client, key) == 1
    ensures key !in s4.client.cache && key !in s4.client.programmed
  {
    GoneReadAt(s1, r, key);
    GoneReadAt(s2, r, key);
    ShownReadAt(s3, r, key);
    GoneReadAt(s4, r, key);
  }

  /** The fixture with foo/lb taken out of both informer stores. */
  function WithoutLb(): GenState {
    UnindexService(UnindexEndpoints(HandlerFixture(), Ep3.meta), Svc3.meta)
  }

  /** The fixture with foo/ext taken out of both informer stores. */
  function WithoutExt(): GenState {
    UnindexService(UnindexEndpoints(HandlerFixture(), Ep4.meta), Svc4.meta)
  }

  lemma WithoutLbFixtureLike()
    ensures FixtureLike(WithoutLb()) && "foo/lb" !in WithoutLb().svcIndex
  {
    FixtureIsFixtureLike();
    FixtureKeys();
    UnindexedFixtureLike(HandlerFixture(), Ep3.meta, Svc3.meta);
  }

  lemma WithoutExtFixtureLike()
    ensures FixtureLike(WithoutExt()) && "foo/ext" !in WithoutExt().svcIndex
  {
    FixtureIsFixtureLike();
    FixtureKeys();
    UnindexedFixtureLike(HandlerFixture(), Ep4.meta, Svc4.meta);
  }

  /**
   * With foo/lb out of the stores, a LoadBalancer range equal to its /32
   * address publishes nothing, before or after a resync; once the service
   * and its endpoints are back, a resync publishes the route with one
   * reference; clearing the range list and resyncing withdraws it and leaves
   * no count entry.
   */
  lemma LoadBalancerSingleScenario(env: Env)
    requires FixtureEnv(env)
    ensures LBSingleKey == "/calico/staticroutes/" + LoadBalancerIP1 + "-32"
    ensures CacheValue(StartResynced(env, WithoutLb()).client, LBSingleKey) == ""
    ensures Count(StartResynced(env, WithoutLb()).client, LBSingleKey) == 0
    ensures CacheValue(SoloSet(env, WithoutLb(), LoadBalancerIPs, LBSingle).client, LBSingleKey) == ""
    ensures Count(SoloSet(env, WithoutLb(), LoadBalancerIPs, LBSingle).client, LBSingleKey) == 0
    ensures CacheValue(LbReadded(env, WithoutLb()).client, LBSingleKey) == LoadBalancerIP1 + "/32"
    ensures Count(LbReadded(env, WithoutLb()).client, LBSingleKey) == 1
    ensures LBSingleKey !in LbCleared(env, WithoutLb()).client.cache
    ensures LBSingleKey !in LbCleared(env, WithoutLb()).client.programmed
  {
    assert LbOutcome(env, WithoutLb()) by {
      WithoutLbFixtureLike();
      LbHolds(env, WithoutLb());
    }
    SoloKeys();
    SoloReads(StartResynced(env, WithoutLb()), SoloSet(env, WithoutLb(), LoadBalancerIPs, LBSingle),
              LbReadded(env, WithoutLb()), LbCleared(env, WithoutLb()), LBSingle, LBSingleKey);
  }

  /**
   * The same for foo/ext and an external range equal to its /32 external IP.
   */
  lemma ExternalSingleScenario(env: Env)
    requires FixtureEnv(env)
    ensures Single3Key == "/calico/staticroutes/" + ExternalIP3 + "-32"
    ensures CacheValue(StartResynced(env, WithoutExt()).client, Single3Key) == ""
    ensures Count(StartResynced(env, WithoutExt()).client, Single3Key) == 0
    ensures CacheValue(SoloSet(env, WithoutExt(), ExternalIPs, Single3).client, Single3Key) == ""
    ensures Count(SoloSet(env, WithoutExt(), ExternalIPs, Single3).client, Single3Key) == 0
    ensures CacheValue(ExtReadded(env, WithoutExt()).client, Single3Key) == ExternalIP3 + "/32"
    ensures Count(ExtReadded(env, WithoutExt()).client, Single3Key) == 1
    ensures Single3Key !in ExtCleared(env, WithoutExt()).client.cache
    ensures Single3Key !in ExtCleared(env, WithoutExt()).client.programmed
  {
    assert ExtOutcome(env, WithoutExt()) by {
      WithoutExtFixtureLike();
      ExtHolds(env, WithoutExt());
    }
    SoloKeys();
    SoloReads(StartResynced(env, WithoutExt()), SoloSet(env, WithoutExt(), ExternalIPs, Single3),
              ExtReadded(env, WithoutExt()), ExtCleared(env, WithoutExt()), Single3, Single3Key);
  }
}
