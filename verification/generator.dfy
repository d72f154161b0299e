/**
 * The route generator as an object. Its two indexers, its per-service route
 * map and its per-route advertisement counts are fields it updates in place,
 * and it writes through a publishing client that it shares with the range
 * hooks. Each method is proved to move the object (and its client) to the
 * state the matching engine function describes, so every property proved of
 * the engine holds of the object.
 */
module Generator {
  import opened Wrappers
  import opened Strings
  import opened Kube
  import opened Resolver
  import opened Ledger
  import opened ClientStore
  import Engine

  class RouteGenerator {
    const nodeName: string
    /** Which endpoint addresses on this node make a service local. */
    const usable: AddressRule
    const client: Client
    /** The informer stores, keyed by `namespace/name`. */
    var svcIndexer: map<string, Service>
    var epIndexer: map<string, Endpoints>
    /** The routes each service currently advertises, by service key. */
    var svcRouteMap: map<string, set<string>>
    /** How many services advertise each route. */
    var routeAdvertisementRefCount: map<string, nat>

    /** What the generator runs against. */
    function Env(): Engine.Env {
      Engine.Env(client.lib, usable, nodeName)
    }

    /** The generator and its client as an engine value. */
    function Model(): Engine.GenState
      reads this, client
    {
      Engine.GenState(client.Model(), svcIndexer, epIndexer, svcRouteMap, routeAdvertisementRefCount)
    }

    /** The engine invariant: reference counts agree with the route map and the client. */
    ghost predicate Valid()
      reads this, client
    {
      Engine.GInv(Model())
    }

    /** A generator with empty stores, writing through `client`. */
    constructor (nodeName: string, usable: AddressRule, client: Client)
      ensures this.nodeName == nodeName && this.usable == usable && this.client == client
      ensures Model() == Engine.GenState(client.Model(), map[], map[], map[], map[])
    {
      this.nodeName := nodeName;
      this.usable := usable;
      this.client := client;
      svcIndexer := map[];
      epIndexer := map[];
      svcRouteMap := map[];
      routeAdvertisementRefCount := map[];
    }

    // -------------------------------------------------------------------
    // The informer stores
    // -------------------------------------------------------------------

    method IndexService(svc: Service)
      modifies this
      ensures Model() == Engine.IndexService(old(Model()), svc)
    {
      svcIndexer := svcIndexer[MetaKey(svc.meta) := svc];
    }

    method UnindexService(meta: ObjectMeta)
      modifies this
      ensures Model() == Engine.UnindexService(old(Model()), meta)
    {
      svcIndexer := svcIndexer - {MetaKey(meta)};
    }

    method IndexEndpoints(ep: Endpoints)
      modifies this
      ensures Model() == Engine.IndexEndpoints(old(Model()), ep)
    {
      epIndexer := epIndexer[MetaKey(ep.meta) := ep];
    }

    method UnindexEndpoints(meta: ObjectMeta)
      modifies this
      ensures Model() == Engine.UnindexEndpoints(old(Model()), meta)
    {
      epIndexer := epIndexer - {MetaKey(meta)};
    }

    // -------------------------------------------------------------------
    // Advertising and withdrawing routes
    // -------------------------------------------------------------------

    method AdvertiseRoute(r: string)
      modifies this, client
      ensures Model() == Engine.AdvertiseRoute(old(Model()), r)
    {
      if r in routeAdvertisementRefCount && routeAdvertisementRefCount[r] > 0 {
        routeAdvertisementRefCount := routeAdvertisementRefCount[r := routeAdvertisementRefCount[r] + 1];
      } else {
        routeAdvertisementRefCount := routeAdvertisementRefCount[r := 1];
        client.SetKey(StaticRouteKey(r), r);
      }
    }

    method WithdrawRoute(r: string)
      modifies this, client
      ensures Model() == Engine.WithdrawRoute(old(Model()), r)
    {
      if r in routeAdvertisementRefCount && routeAdvertisementRefCount[r] > 0 {
        if routeAdvertisementRefCount[r] == 1 {
          routeAdvertisementRefCount := routeAdvertisementRefCount - {r};
          client.UnsetKey(StaticRouteKey(r));
        } else {
          routeAdvertisementRefCount := routeAdvertisementRefCount[r := routeAdvertisementRefCount[r] - 1];
        }
      }
    }

    method AdvertiseRoutes(rs: seq<string>)
      modifies this, client
      ensures Model() == Engine.AdvertiseAll(old(Model()), rs)
    {
      ghost var g0 := Model();
      var i := 0;
      while i < |rs|
        invariant 0 <= i <= |rs|
        invariant Model() == Engine.AdvertiseAll(g0, rs[..i])
      {
        AdvertiseRoute(rs[i]);
        assert rs[..i + 1][..i] == rs[..i];
        i := i + 1;
      }
      assert rs[..i] == rs;
    }

    method WithdrawRoutes(rs: seq<string>)
      modifies this, client
      ensures Model() == Engine.WithdrawAll(old(Model()), rs)
    {
      ghost var g0 := Model();
      var i := 0;
      while i < |rs|
        invariant 0 <= i <= |rs|
        invariant Model() == Engine.WithdrawAll(g0, rs[..i])
      {
        WithdrawRoute(rs[i]);
        assert rs[..i + 1][..i] == rs[..i];
        i := i + 1;
      }
      assert rs[..i] == rs;
    }

    /** Move the service under `key` to the route set `routes`. */
    method SetRoutesForKey(key: string, routes: set<string>)
      modifies this, client
      ensures Model() == Engine.SetRoutesForKey(old(Model()), key, routes)
    {
      var cur := if key in svcRouteMap then svcRouteMap[key] else {};
      WithdrawRoutes(SortedSeq(cur - routes));
      AdvertiseRoutes(SortedSeq(routes - cur));
      if routes == {} {
        svcRouteMap := svcRouteMap - {key};
      } else {
        svcRouteMap := svcRouteMap[key := routes];
      }
    }

    // -------------------------------------------------------------------
    // Lookups
    // -------------------------------------------------------------------

    method GetServiceForEndpoints(ep: Endpoints) returns (svc: Option<Service>, key: string)
      ensures (svc, key) == Engine.GetServiceForEndpoints(Model(), ep)
    {
      key := MetaKey(ep.meta);
      if key in svcIndexer {
        svc := Some(svcIndexer[key]);
      } else {
        svc, key := None, "";
      }
    }

    method GetEndpointsForService(svc: Service) returns (ep: Option<Endpoints>, key: string)
      ensures (ep, key) == Engine.GetEndpointsForService(Model(), svc)
    {
      key := MetaKey(svc.meta);
      if key in epIndexer {
        ep := Some(epIndexer[key]);
      } else {
        ep, key := None, "";
      }
    }

    /** The resolver's route set for the pair under the client's current ranges. */
    method RoutesFor(svc: Service, ep: Endpoints) returns (routes: set<string>)
      ensures routes == Engine.ServiceRoutes(Env(), Model(), svc, ep)
    {
      var cfg := client.Model().ranges;
      routes := RouteSetOf(AdvertisedRoutes(client.lib, usable, cfg, nodeName, svc, ep));
    }

    // -------------------------------------------------------------------
    // setRouteForSvc, unsetRouteForSvc and the handlers
    // -------------------------------------------------------------------

    method SetRouteForSvc(svc: Option<Service>, ep: Option<Endpoints>)
      modifies this, client
      ensures Model() == Engine.SetRouteForSvc(Env(), old(Model()), svc, ep)
    {
      if svc.None? && ep.None? {
        return;
      }
      var s, e, key;
      if ep.None? {
        var found;
        found, key := GetEndpointsForService(svc.value);
        if found.None? {
          return;
        }
        s, e := svc.value, found.value;
      } else if svc.None? {
        var found;
        found, key := GetServiceForEndpoints(ep.value);
        if found.None? {
          return;
        }
        s, e := found.value, ep.value;
      } else {
        s, e, key := svc.value, ep.value, MetaKey(svc.value.meta);
      }
      var routes := RoutesFor(s, e);
      SetRoutesForKey(key, routes);
    }

    method UnsetRouteForSvc(meta: ObjectMeta)
      modifies this, client
      ensures Model() == Engine.UnsetRouteForSvc(old(Model()), meta)
    {
      SetRoutesForKey(MetaKey(meta), {});
    }

    method OnSvcAdd(svc: Service)
      modifies this, client
      ensures Model() == Engine.OnSvcAdd(Env(), old(Model()), svc)
      ensures old(Valid()) ==> Valid()
    {
      if Valid() {
        Engine.SetRouteForSvcPreservesGInv(Env(), Model(), Some(svc), None);
      }
      SetRouteForSvc(Some(svc), None);
    }

    method OnSvcUpdate(oldSvc: Option<Service>, svc: Service)
      modifies this, client
      ensures Model() == Engine.OnSvcUpdate(Env(), old(Model()), oldSvc, svc)
      ensures old(Valid()) ==> Valid()
    {
      if Valid() {
        Engine.SetRouteForSvcPreservesGInv(Env(), Model(), Some(svc), None);
      }
      SetRouteForSvc(Some(svc), None);
    }

    method OnSvcDelete(svc: Service)
      modifies this, client
      ensures Model() == Engine.OnSvcDelete(old(Model()), svc)
      ensures old(Valid()) ==> Valid()
    {
      if Valid() {
        Engine.SetRoutesForKeyPreservesGInv(Model(), MetaKey(svc.meta), {});
      }
      UnsetRouteForSvc(svc.meta);
    }

    method OnEPAdd(ep: Endpoints)
      modifies this, client
      ensures Model() == Engine.OnEPAdd(Env(), old(Model()), ep)
      ensures old(Valid()) ==> Valid()
    {
      if Valid() {
        Engine.SetRouteForSvcPreservesGInv(Env(), Model(), None, Some(ep));
      }
      SetRouteForSvc(None, Some(ep));
    }

    method OnEPUpdate(oldEp: Option<Endpoints>, ep: Endpoints)
      modifies this, client
      ensures Model() == Engine.OnEPUpdate(Env(), old(Model()), oldEp, ep)
      ensures old(Valid()) ==> Valid()
    {
      if Valid() {
        Engine.SetRouteForSvcPreservesGInv(Env(), Model(), None, Some(ep));
      }
      SetRouteForSvc(None, Some(ep));
    }

    method OnEPDelete(ep: Endpoints)
      modifies this, client
      ensures Model() == Engine.OnEPDelete(old(Model()), ep)
      ensures old(Valid()) ==> Valid()
    {
      if Valid() {
        Engine.SetRoutesForKeyPreservesGInv(Model(), MetaKey(ep.meta), {});
      }
      UnsetRouteForSvc(ep.meta);
    }

    /** Recompute every indexed service, in key order, against the current ranges. */
    method ResyncKnownRoutes()
      modifies this, client
      ensures Model() == Engine.Resync(Env(), old(Model()))
      ensures old(Valid()) ==> Valid()
    {
      ghost var g0 := Model();
      var svcs := Engine.IndexedServices(svcIndexer);
      var i := 0;
      while i < |svcs|
        invariant 0 <= i <= |svcs|
        invariant Model() == Engine.ResyncServices(Env(), g0, svcs[..i])
      {
        SetRouteForSvc(Some(svcs[i]), None);
        Engine.ResyncServicesStep(Env(), g0, svcs, i);
        i := i + 1;
      }
      assert svcs[..i] == svcs;
      if Engine.GInv(g0) {
        Engine.ResyncServicesPreservesGInv(Env(), g0, svcs);
      }
    }
  }
}
