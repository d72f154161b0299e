/**
 * The route generator as a state machine over values: the service and
 * endpoints indexers, the route set each service currently claims, the
 * per-route advertisement count, and the client ledger it writes through.
 * A route is programmed into the client when its first claimant appears and
 * withdrawn when its last claimant goes, so a route shared by several
 * services is programmed once.
 */
module Engine {
  import opened Wrappers
  import opened Strings
  import opened Net
  import opened Kube
  import opened RangeIndex
  import opened Resolver
  import opened Ledger

  /** What the generator runs against: the foreign address parser, the
      local-address rule and the name of this node. */
  datatype Env = Env(lib: NetLib, usable: AddressRule, nodeName: string)

  datatype GenState = GenState(
    client: ClientState,
    svcIndex: map<string, Service>,
    epIndex: map<string, Endpoints>,
    svcRoutes: map<string, set<string>>,
    adv: map<string, nat>)

  /** The advertisement count of a route; an absent entry counts as zero. */
  function AdvCount(g: GenState, r: string): nat {
    if r in g.adv then g.adv[r] else 0
  }

  // ---------------------------------------------------------------------
  // Advertising and withdrawing one route
  // ---------------------------------------------------------------------

  /** One more service claims route `r`; the first claim programs its static route. */
  function AdvertiseRoute(g: GenState, r: string): (h: GenState)
    ensures AdvCount(h, r) == AdvCount(g, r) + 1
    ensures forall r' :: r' != r ==> AdvCount(h, r') == AdvCount(g, r')
    ensures h.client == if AdvCount(g, r) == 0 then SetKey(g.client, StaticRouteKey(r), r) else g.client
    ensures h.svcIndex == g.svcIndex && h.epIndex == g.epIndex && h.svcRoutes == g.svcRoutes
  {
    if AdvCount(g, r) == 0 then g.(adv := g.adv[r := 1], client := SetKey(g.client, StaticRouteKey(r), r))
    else g.(adv := g.adv[r := g.adv[r] + 1])
  }

  /** One service fewer claims route `r`; the last claim withdraws its static
      route and removes its count entry. An unclaimed route is left alone. */
  function WithdrawRoute(g: GenState, r: string): (h: GenState)
    ensures AdvCount(h, r) == if AdvCount(g, r) > 0 then AdvCount(g, r) - 1 else 0
    ensures forall r' :: r' != r ==> AdvCount(h, r') == AdvCount(g, r')
    ensures AdvCount(g, r) == 1 ==> r !in h.adv
    ensures h.client == if AdvCount(g, r) == 1 then UnsetKey(g.client, StaticRouteKey(r)) else g.client
    ensures h.svcIndex == g.svcIndex && h.epIndex == g.epIndex && h.svcRoutes == g.svcRoutes
  {
    if AdvCount(g, r) == 0 then g
    else if AdvCount(g, r) == 1 then g.(adv := g.adv - {r}, client := UnsetKey(g.client, StaticRouteKey(r)))
    else g.(adv := g.adv[r := g.adv[r] - 1])
  }

  /** The generator never drops a reference it does not hold: withdrawing a
      route's last advertisement finds its key counted at least once. */
  lemma WithdrawRouteHoldsReference(g: GenState, r: string)
    requires LInv(g) && AdvCount(g, r) == 1
    ensures Count(g.client, StaticRouteKey(r)) >= 1
    ensures Count(WithdrawRoute(g, r).client, StaticRouteKey(r)) == Count(g.client, StaticRouteKey(r)) - 1
  {
    assert r in KeyClaimants(g.adv, StaticRouteKey(r));
  }

  function AdvertiseAll(g: GenState, rs: seq<string>): (h: GenState)
    ensures h.svcIndex == g.svcIndex && h.epIndex == g.epIndex && h.svcRoutes == g.svcRoutes
    ensures h.client.ranges == g.client.ranges
    decreases |rs|
  {
    if rs == [] then g else AdvertiseRoute(AdvertiseAll(g, rs[..|rs| - 1]), rs[|rs| - 1])
  }

  function WithdrawAll(g: GenState, rs: seq<string>): (h: GenState)
    ensures h.svcIndex == g.svcIndex && h.epIndex == g.epIndex && h.svcRoutes == g.svcRoutes
    ensures h.client.ranges == g.client.ranges
    decreases |rs|
  {
    if rs == [] then g else WithdrawRoute(WithdrawAll(g, rs[..|rs| - 1]), rs[|rs| - 1])
  }

  /** Advertising a list adds one claim per occurrence. */
  lemma {:induction false} AdvertiseAllCount(g: GenState, rs: seq<string>, r: string)
    ensures AdvCount(AdvertiseAll(g, rs), r) == AdvCount(g, r) + multiset(rs)[r]
    decreases |rs|
  {
    if rs != [] {
      AdvertiseAllCount(g, rs[..|rs| - 1], r);
      assert rs == rs[..|rs| - 1] + [rs[|rs| - 1]];
    }
  }

  /** Withdrawing a list removes one claim per occurrence, stopping at zero. */
  lemma {:induction false} WithdrawAllCount(g: GenState, rs: seq<string>, r: string)
    ensures AdvCount(WithdrawAll(g, rs), r) ==
            if AdvCount(g, r) >= multiset(rs)[r] then AdvCount(g, r) - multiset(rs)[r] else 0
    decreases |rs|
  {
    if rs != [] {
      WithdrawAllCount(g, rs[..|rs| - 1], r);
      assert rs == rs[..|rs| - 1] + [rs[|rs| - 1]];
    }
  }

  lemma {:induction false} DistinctOccurrences(rs: seq<string>, r: string)
    requires Distinct(rs)
    ensures multiset(rs)[r] == if r in rs then 1 else 0
    decreases |rs|
  {
    if rs != [] {
      var init := rs[..|rs| - 1];
      assert rs == init + [rs[|rs| - 1]];
      DistinctOccurrences(init, r);
      if r == rs[|rs| - 1] {
        forall j | 0 <= j < |init| ensures init[j] != r {
          assert rs[j] != rs[|rs| - 1];
        }
      }
    }
  }

  // ---------------------------------------------------------------------
  // The ledger side of the generator's bookkeeping
  // ---------------------------------------------------------------------

  /** The advertised routes whose static-route key is `k`. */
  function KeyClaimants(adv: map<string, nat>, k: string): set<string> {
    set r | r in adv && StaticRouteKey(r) == k
  }

  /**
   * Every count entry is positive, the client ledger is consistent, and each
   * advertised route holds one reference on its static-route key (configured
   * ranges may hold more).
   */
  ghost predicate LInv(g: GenState) {
    CInv(g.client)
    && (forall r :: r in g.adv ==> g.adv[r] >= 1)
    && (forall k :: |KeyClaimants(g.adv, k)| <= Count(g.client, k))
  }

  /** No configured range holds a reference: the static routes in the client
      are exactly those of the advertised routes. */
  ghost predicate Exact(g: GenState) {
    forall k :: Count(g.client, k) == |KeyClaimants(g.adv, k)|
  }

  lemma KeyClaimantsAdd(adv: map<string, nat>, r: string, n: nat, k: string)
    requires r !in adv
    ensures |KeyClaimants(adv[r := n], k)| == |KeyClaimants(adv, k)| + (if StaticRouteKey(r) == k then 1 else 0)
  {
    if StaticRouteKey(r) == k {
      assert KeyClaimants(adv[r := n], k) == KeyClaimants(adv, k) + {r};
    } else {
      assert KeyClaimants(adv[r := n], k) == KeyClaimants(adv, k);
    }
  }

  lemma KeyClaimantsRemove(adv: map<string, nat>, r: string, k: string)
    requires r in adv
    ensures |KeyClaimants(adv - {r}, k)| == |KeyClaimants(adv, k)| - (if StaticRouteKey(r) == k then 1 else 0)
  {
    if StaticRouteKey(r) == k {
      assert KeyClaimants(adv - {r}, k) == KeyClaimants(adv, k) - {r};
    } else {
      assert KeyClaimants(adv - {r}, k) == KeyClaimants(adv, k);
    }
  }

  lemma KeyClaimantsUpdate(adv: map<string, nat>, r: string, n: nat, k: string)
    requires r in adv
    ensures KeyClaimants(adv[r := n], k) == KeyClaimants(adv, k)
  {
  }

  lemma AdvertiseRoutePreservesLInv(g: GenState, r: string)
    requires LInv(g)
    ensures LInv(AdvertiseRoute(g, r))
    ensures Exact(g) ==> Exact(AdvertiseRoute(g, r))
    ensures AdvertiseRoute(g, r).client.revision ==
            g.client.revision + (if AdvCount(g, r) == 0 && Count(g.client, StaticRouteKey(r)) == 0 then 1 else 0)
  {
    var h := AdvertiseRoute(g, r);
    StaticRouteKeyIsStatic(r);
    if AdvCount(g, r) == 0 {
      SetKeyPreservesInv(g.client, StaticRouteKey(r), r);
      forall k ensures |KeyClaimants(h.adv, k)| == |KeyClaimants(g.adv, k)| + (if StaticRouteKey(r) == k then 1 else 0) {
        KeyClaimantsAdd(g.adv, r, 1, k);
      }
    } else {
      forall k ensures KeyClaimants(h.adv, k) == KeyClaimants(g.adv, k) {
        KeyClaimantsUpdate(g.adv, r, g.adv[r] + 1, k);
      }
    }
  }

  lemma WithdrawRoutePreservesLInv(g: GenState, r: string)
    requires LInv(g)
    ensures LInv(WithdrawRoute(g, r))
    ensures Exact(g) ==> Exact(WithdrawRoute(g, r))
    ensures WithdrawRoute(g, r).client.revision ==
            g.client.revision + (if AdvCount(g, r) == 1 && Count(g.client, StaticRouteKey(r)) == 1 then 1 else 0)
  {
    var h := WithdrawRoute(g, r);
    StaticRouteKeyIsStatic(r);
    if AdvCount(g, r) == 1 {
      assert r in KeyClaimants(g.adv, StaticRouteKey(r));
      UnsetKeyPreservesInv(g.client, StaticRouteKey(r));
      forall k ensures |KeyClaimants(h.adv, k)| == |KeyClaimants(g.adv, k)| - (if StaticRouteKey(r) == k then 1 else 0) {
        KeyClaimantsRemove(g.adv, r, k);
      }
    } else if AdvCount(g, r) > 1 {
      forall k ensures KeyClaimants(h.adv, k) == KeyClaimants(g.adv, k) {
        KeyClaimantsUpdate(g.adv, r, g.adv[r] - 1, k);
      }
    }
  }

  lemma {:induction false} AdvertiseAllPreservesLInv(g: GenState, rs: seq<string>)
    requires LInv(g)
    ensures LInv(AdvertiseAll(g, rs))
    ensures Exact(g) ==> Exact(AdvertiseAll(g, rs))
    decreases |rs|
  {
    if rs != [] {
      AdvertiseAllPreservesLInv(g, rs[..|rs| - 1]);
      AdvertiseRoutePreservesLInv(AdvertiseAll(g, rs[..|rs| - 1]), rs[|rs| - 1]);
    }
  }

  lemma {:induction false} WithdrawAllPreservesLInv(g: GenState, rs: seq<string>)
    requires LInv(g)
    ensures LInv(WithdrawAll(g, rs))
    ensures Exact(g) ==> Exact(WithdrawAll(g, rs))
    decreases |rs|
  {
    if rs != [] {
      WithdrawAllPreservesLInv(g, rs[..|rs| - 1]);
      WithdrawRoutePreservesLInv(WithdrawAll(g, rs[..|rs| - 1]), rs[|rs| - 1]);
    }
  }

  /** Every advertised route's static-route key is in the client cache. */
  lemma AdvertisedAreProgrammed(g: GenState, r: string)
    requires LInv(g) && r in g.adv
    ensures StaticRouteKey(r) in g.client.programmed && StaticRouteKey(r) in g.client.cache
  {
    assert r in KeyClaimants(g.adv, StaticRouteKey(r));
  }

  // ---------------------------------------------------------------------
  // Revision accounting
  // ---------------------------------------------------------------------

  /** No advertised route contains '-', so distinct routes have distinct keys. */
  ghost predicate AdvDashFree(g: GenState) {
    forall r :: r in g.adv ==> '-' !in r
  }

  lemma KeyClaimantsOfDashFree(g: GenState, r: string)
    requires AdvDashFree(g) && '-' !in r
    ensures KeyClaimants(g.adv, StaticRouteKey(r)) == if r in g.adv then {r} else {}
  {
    forall r' | r' in g.adv && StaticRouteKey(r') == StaticRouteKey(r) ensures r' == r {
      StaticRouteKeyInjective(r', r);
    }
  }

  lemma {:induction false} AdvertiseAllDashFree(g: GenState, rs: seq<string>)
    requires AdvDashFree(g) && DashFree(rs)
    ensures AdvDashFree(AdvertiseAll(g, rs))
    ensures forall r :: r in AdvertiseAll(g, rs).adv ==> r in g.adv || r in rs
    decreases |rs|
  {
    if rs != [] {
      AdvertiseAllDashFree(g, rs[..|rs| - 1]);
    }
  }

  lemma {:induction false} WithdrawAllDashFree(g: GenState, rs: seq<string>)
    requires AdvDashFree(g)
    ensures AdvDashFree(WithdrawAll(g, rs))
    ensures forall r :: r in WithdrawAll(g, rs).adv ==> r in g.adv
    decreases |rs|
  {
    if rs != [] {
      WithdrawAllDashFree(g, rs[..|rs| - 1]);
    }
  }

  /** The routes of `rs` that nobody advertises yet. */
  function Unclaimed(g: GenState, rs: seq<string>): set<string> {
    set r | r in rs && AdvCount(g, r) == 0
  }

  /** The routes of `rs` that have exactly one claimant. */
  function LastClaimed(g: GenState, rs: seq<string>): set<string> {
    set r | r in rs && AdvCount(g, r) == 1
  }

  /** A distinct, dash-free list splits into a distinct, dash-free prefix and
      a last route the prefix does not hold. */
  lemma DistinctSnoc(rs: seq<string>)
    requires rs != [] && DashFree(rs) && Distinct(rs)
    ensures rs == rs[..|rs| - 1] + [rs[|rs| - 1]]
    ensures DashFree(rs[..|rs| - 1]) && Distinct(rs[..|rs| - 1])
    ensures rs[|rs| - 1] !in rs[..|rs| - 1] && '-' !in rs[|rs| - 1]
  {
    var init, last := rs[..|rs| - 1], rs[|rs| - 1];
    forall j | 0 <= j < |init| ensures init[j] != last {
      assert rs[j] != rs[|rs| - 1];
    }
  }

  lemma UnclaimedSnoc(g: GenState, init: seq<string>, last: string)
    requires last !in init
    ensures |Unclaimed(g, init + [last])| == |Unclaimed(g, init)| + (if AdvCount(g, last) == 0 then 1 else 0)
  {
    if AdvCount(g, last) == 0 {
      assert Unclaimed(g, init + [last]) == Unclaimed(g, init) + {last};
    } else {
      assert Unclaimed(g, init + [last]) == Unclaimed(g, init);
    }
  }

  lemma LastClaimedSnoc(g: GenState, init: seq<string>, last: string)
    requires last !in init
    ensures |LastClaimed(g, init + [last])| == |LastClaimed(g, init)| + (if AdvCount(g, last) == 1 then 1 else 0)
  {
    if AdvCount(g, last) == 1 {
      assert LastClaimed(g, init + [last]) == LastClaimed(g, init) + {last};
    } else {
      assert LastClaimed(g, init + [last]) == LastClaimed(g, init);
    }
  }

  /**
   * With static routes owned by the generator alone and no key collisions,
   * advertising distinct routes writes exactly one cache entry, and moves the
   * revision by one, per route nobody advertised before.
   */
  lemma {:induction false} AdvertiseAllRevision(g: GenState, rs: seq<string>)
    requires LInv(g) && Exact(g) && AdvDashFree(g) && DashFree(rs) && Distinct(rs)
    ensures AdvertiseAll(g, rs).client.revision == g.client.revision + |Unclaimed(g, rs)|
    decreases |rs|
  {
    if rs != [] {
      var init, last := rs[..|rs| - 1], rs[|rs| - 1];
      var g0 := AdvertiseAll(g, init);
      DistinctSnoc(rs);
      AdvertiseAllRevision(g, init);
      AdvertiseAllPreservesLInv(g, init);
      AdvertiseAllDashFree(g, init);
      AdvertiseAllCount(g, init, last);
      DistinctOccurrences(init, last);
      KeyClaimantsOfDashFree(g0, last);
      AdvertiseRoutePreservesLInv(g0, last);
      UnclaimedSnoc(g, init, last);
    }
  }

  /** Withdrawing distinct routes deletes one cache entry, and moves the
      revision by one, per route whose last claimant goes. */
  lemma {:induction false} WithdrawAllRevision(g: GenState, rs: seq<string>)
    requires LInv(g) && Exact(g) && AdvDashFree(g) && DashFree(rs) && Distinct(rs)
    ensures WithdrawAll(g, rs).client.revision == g.client.revision + |LastClaimed(g, rs)|
    decreases |rs|
  {
    if rs != [] {
      var init, last := rs[..|rs| - 1], rs[|rs| - 1];
      var g0 := WithdrawAll(g, init);
      DistinctSnoc(rs);
      WithdrawAllRevision(g, init);
      WithdrawAllPreservesLInv(g, init);
      WithdrawAllDashFree(g, init);
      WithdrawAllCount(g, init, last);
      DistinctOccurrences(init, last);
      KeyClaimantsOfDashFree(g0, last);
      WithdrawRoutePreservesLInv(g0, last);
      LastClaimedSnoc(g, init, last);
    }
  }

  // ---------------------------------------------------------------------
  // Setting a service's route set
  // ---------------------------------------------------------------------

  /** The routes the service under `key` currently claims. */
  function CurrentRoutes(g: GenState, key: string): set<string> {
    if key in g.svcRoutes then g.svcRoutes[key] else {}
  }

  /** The route map with `key` set to `routes`; an empty set removes the key. */
  function Assign(m: map<string, set<string>>, key: string, routes: set<string>): (m': map<string, set<string>>)
    ensures routes == {} ==> key !in m'
    ensures routes != {} ==> key in m' && m'[key] == routes
    ensures forall k :: k != key ==> (k in m' <==> k in m) && (k in m ==> m'[k] == m[k])
  {
    if routes == {} then m - {key} else m[key := routes]
  }

  /**
   * Diff the service's current routes against `routes`: withdraw the routes it
   * no longer has, advertise the ones it gains (each list in key order), and
   * record the new set.
   */
  function SetRoutesForKey(g: GenState, key: string, routes: set<string>): (h: GenState)
    ensures h.svcRoutes == Assign(g.svcRoutes, key, routes)
    ensures h.svcIndex == g.svcIndex && h.epIndex == g.epIndex && h.client.ranges == g.client.ranges
  {
    var cur := CurrentRoutes(g, key);
    var g1 := WithdrawAll(g, SortedSeq(cur - routes));
    var g2 := AdvertiseAll(g1, SortedSeq(routes - cur));
    g2.(svcRoutes := Assign(g.svcRoutes, key, routes))
  }

  /** The services that claim route `r`. */
  function Claimants(m: map<string, set<string>>, r: string): set<string> {
    set k | k in m && r in m[k]
  }

  /**
   * The generator invariant: the ledger side holds, no service is recorded
   * with an empty route set, and every route's advertisement count is the
   * number of services claiming it.
   */
  ghost predicate GInv(g: GenState) {
    LInv(g)
    && (forall k :: k in g.svcRoutes ==> g.svcRoutes[k] != {})
    && (forall r :: AdvCount(g, r) == |Claimants(g.svcRoutes, r)|)
  }

  lemma ClaimantsAfterAssign(m: map<string, set<string>>, key: string, routes: set<string>, r: string)
    ensures |Claimants(Assign(m, key, routes), r)| ==
            |Claimants(m, r)| - (if key in m && r in m[key] then 1 else 0) + (if r in routes then 1 else 0)
  {
    var m' := Assign(m, key, routes);
    var before, after := Claimants(m, r), Claimants(m', r);
    var rest := before - {key};
    forall k ensures k in after <==> k in rest || (k == key && r in routes) {
      if k != key {
        assert k in m' <==> k in m;
      }
    }
    if key in m && r in m[key] {
      assert before == rest + {key};
    } else {
      assert rest == before;
    }
    if r in routes {
      assert after == rest + {key};
    } else {
      assert after == rest;
    }
  }

  /** The new advertisement count of every route: one less if the service
      dropped it, one more if it gained it. */
  lemma SetRoutesForKeyCount(g: GenState, key: string, routes: set<string>, r: string)
    requires GInv(g)
    ensures AdvCount(SetRoutesForKey(g, key, routes), r) ==
            AdvCount(g, r) - (if r in CurrentRoutes(g, key) then 1 else 0) + (if r in routes then 1 else 0)
  {
    var cur := CurrentRoutes(g, key);
    var w, a := SortedSeq(cur - routes), SortedSeq(routes - cur);
    SortedSeqDistinct(cur - routes);
    SortedSeqDistinct(routes - cur);
    WithdrawAllCount(g, w, r);
    AdvertiseAllCount(WithdrawAll(g, w), a, r);
    DistinctOccurrences(w, r);
    DistinctOccurrences(a, r);
    if r in cur {
      assert key in Claimants(g.svcRoutes, r);
    }
  }

  lemma SetRoutesForKeyLedger(g: GenState, key: string, routes: set<string>)
    requires LInv(g)
    ensures LInv(SetRoutesForKey(g, key, routes))
    ensures Exact(g) ==> Exact(SetRoutesForKey(g, key, routes))
  {
    var cur := CurrentRoutes(g, key);
    var w, a := SortedSeq(cur - routes), SortedSeq(routes - cur);
    var g2 := AdvertiseAll(WithdrawAll(g, w), a);
    WithdrawAllPreservesLInv(g, w);
    AdvertiseAllPreservesLInv(WithdrawAll(g, w), a);
    assert SetRoutesForKey(g, key, routes) == g2.(svcRoutes := Assign(g.svcRoutes, key, routes));
  }

  lemma SetRoutesForKeyClaims(g: GenState, key: string, routes: set<string>)
    requires GInv(g)
    ensures forall r :: AdvCount(SetRoutesForKey(g, key, routes), r) ==
                        |Claimants(SetRoutesForKey(g, key, routes).svcRoutes, r)|
  {
    var h := SetRoutesForKey(g, key, routes);
    forall r ensures AdvCount(h, r) == |Claimants(h.svcRoutes, r)| {
      SetRoutesForKeyCount(g, key, routes, r);
      ClaimantsAfterAssign(g.svcRoutes, key, routes, r);
    }
  }

  lemma SetRoutesForKeyPreservesGInv(g: GenState, key: string, routes: set<string>)
    requires GInv(g)
    ensures GInv(SetRoutesForKey(g, key, routes))
    ensures Exact(g) ==> Exact(SetRoutesForKey(g, key, routes))
  {
    SetRoutesForKeyLedger(g, key, routes);
    SetRoutesForKeyClaims(g, key, routes);
  }

  /**
   * With static routes owned by the generator alone and no key collisions, the
   * revision moves by one per route whose last claimant this service was and
   * drops, plus one per route nobody advertised that it gains.
   */
  lemma SetRoutesForKeyRevision(g: GenState, key: string, routes: set<string>)
    requires GInv(g) && Exact(g) && AdvDashFree(g)
    requires forall r :: r in routes ==> '-' !in r
    ensures SetRoutesForKey(g, key, routes).client.revision == g.client.revision
      + |LastClaimed(g, SortedSeq(CurrentRoutes(g, key) - routes))|
      + |Unclaimed(g, SortedSeq(routes - CurrentRoutes(g, key)))|
    ensures AdvDashFree(SetRoutesForKey(g, key, routes))
  {
    var cur := CurrentRoutes(g, key);
    var w, a := SortedSeq(cur - routes), SortedSeq(routes - cur);
    var g1 := WithdrawAll(g, w);
    SortedSeqDistinct(cur - routes);
    SortedSeqDistinct(routes - cur);
    forall i | 0 <= i < |w| ensures '-' !in w[i] {
      assert w[i] in w;
      assert key in Claimants(g.svcRoutes, w[i]);
    }
    forall i | 0 <= i < |a| ensures '-' !in a[i] {
      assert a[i] in a;
    }
    WithdrawAllRevision(g, w);
    WithdrawAllPreservesLInv(g, w);
    WithdrawAllDashFree(g, w);
    AdvertiseAllRevision(g1, a);
    AdvertiseAllDashFree(g1, a);
    assert Unclaimed(g1, a) == Unclaimed(g, a) by {
      forall r | r in a ensures AdvCount(g1, r) == AdvCount(g, r) {
        WithdrawAllCount(g, w, r);
        DistinctOccurrences(w, r);
      }
    }
  }

  /** Setting a service's current route set again changes nothing. */
  lemma SetRoutesForKeyIdempotent(g: GenState, key: string)
    requires GInv(g)
    ensures SetRoutesForKey(g, key, CurrentRoutes(g, key)) == g
  {
    var cur := CurrentRoutes(g, key);
    assert cur - cur == {};
    assert SortedSeq(cur - cur) == [];
    assert Assign(g.svcRoutes, key, cur) == g.svcRoutes;
  }

  /**
   * Dropping every route of a service removes its entry. A route it shared
   * stays advertised and programmed; a route it alone claimed loses its count
   * entry and, when the generator alone owns static routes and keys do not
   * collide, its cache entry and programmed count too.
   */
  lemma UnsetWithdraws(g: GenState, key: string, r: string)
    requires GInv(g) && r in CurrentRoutes(g, key)
    ensures key !in SetRoutesForKey(g, key, {}).svcRoutes
    ensures Claimants(g.svcRoutes, r) != {key} ==>
      r in SetRoutesForKey(g, key, {}).adv && StaticRouteKey(r) in SetRoutesForKey(g, key, {}).client.cache
    ensures Claimants(g.svcRoutes, r) == {key} ==> r !in SetRoutesForKey(g, key, {}).adv
    ensures Claimants(g.svcRoutes, r) == {key} && Exact(g) && AdvDashFree(g) ==>
      StaticRouteKey(r) !in SetRoutesForKey(g, key, {}).client.cache &&
      StaticRouteKey(r) !in SetRoutesForKey(g, key, {}).client.programmed
  {
    var h := SetRoutesForKey(g, key, {});
    SetRoutesForKeyPreservesGInv(g, key, {});
    SetRoutesForKeyCount(g, key, {}, r);
    assert key in Claimants(g.svcRoutes, r);
    if Claimants(g.svcRoutes, r) != {key} {
      var other :| other in Claimants(g.svcRoutes, r) && other != key;
      assert Claimants(g.svcRoutes, r) >= {key, other};
      assert |{key, other}| == 2;
      AdvertisedAreProgrammed(h, r);
    } else if Exact(g) && AdvDashFree(g) {
      SetRoutesForKeyRevision(g, key, {});
      assert key in Claimants(g.svcRoutes, r);
      assert '-' !in r;
      KeyClaimantsOfDashFree(h, r);
      StaticRouteKeyIsStatic(r);
    }
  }

  // ---------------------------------------------------------------------
  // Lookups, setRouteForSvc and the informer handlers
  // ---------------------------------------------------------------------

  /** The informer stores after adding (or replacing) or deleting an object. */
  function IndexService(g: GenState, svc: Service): GenState {
    g.(svcIndex := g.svcIndex[MetaKey(svc.meta) := svc])
  }

  function UnindexService(g: GenState, meta: ObjectMeta): GenState {
    g.(svcIndex := g.svcIndex - {MetaKey(meta)})
  }

  function IndexEndpoints(g: GenState, ep: Endpoints): GenState {
    g.(epIndex := g.epIndex[MetaKey(ep.meta) := ep])
  }

  function UnindexEndpoints(g: GenState, meta: ObjectMeta): GenState {
    g.(epIndex := g.epIndex - {MetaKey(meta)})
  }

  /** The service indexed under the endpoints' key, with that key; ("", none) on a miss. */
  function GetServiceForEndpoints(g: GenState, ep: Endpoints): (r: (Option<Service>, string))
    ensures r.0.Some? <==> MetaKey(ep.meta) in g.svcIndex
    ensures r.0.Some? ==> r.0.value == g.svcIndex[MetaKey(ep.meta)] && r.1 == MetaKey(ep.meta)
    ensures r.0.None? ==> r.1 == ""
  {
    var key := MetaKey(ep.meta);
    if key in g.svcIndex then (Some(g.svcIndex[key]), key) else (None, "")
  }

  /** The endpoints indexed under the service's key, with that key; ("", none) on a miss. */
  function GetEndpointsForService(g: GenState, svc: Service): (r: (Option<Endpoints>, string))
    ensures r.0.Some? <==> MetaKey(svc.meta) in g.epIndex
    ensures r.0.Some? ==> r.0.value == g.epIndex[MetaKey(svc.meta)] && r.1 == MetaKey(svc.meta)
    ensures r.0.None? ==> r.1 == ""
  {
    var key := MetaKey(svc.meta);
    if key in g.epIndex then (Some(g.epIndex[key]), key) else (None, "")
  }

  /** The route set the resolver gives for a service under the current ranges. */
  function ServiceRoutes(env: Env, g: GenState, svc: Service, ep: Endpoints): set<string> {
    RouteSetOf(AdvertisedRoutes(env.lib, env.usable, g.client.ranges, env.nodeName, svc, ep))
  }

  /**
   * Recompute one service's routes. A missing half is looked up in the other
   * indexer under the same key; if it is not there (or both halves are
   * missing) nothing changes.
   */
  function SetRouteForSvc(env: Env, g: GenState, svc: Option<Service>, ep: Option<Endpoints>): GenState {
    if svc.None? && ep.None? then g
    else if ep.None? then
      var found := GetEndpointsForService(g, svc.value);
      if found.0.None? then g else SetRoutesForKey(g, found.1, ServiceRoutes(env, g, svc.value, found.0.value))
    else if svc.None? then
      var found := GetServiceForEndpoints(g, ep.value);
      if found.0.None? then g else SetRoutesForKey(g, found.1, ServiceRoutes(env, g, found.0.value, ep.value))
    else SetRoutesForKey(g, MetaKey(svc.value.meta), ServiceRoutes(env, g, svc.value, ep.value))
  }

  /** Withdraw every route of the service under the object's key. */
  function UnsetRouteForSvc(g: GenState, meta: ObjectMeta): GenState {
    SetRoutesForKey(g, MetaKey(meta), {})
  }

  function OnSvcAdd(env: Env, g: GenState, svc: Service): GenState {
    SetRouteForSvc(env, g, Some(svc), None)
  }

  /** The previous object plays no part: the new one is resolved afresh. */
  function OnSvcUpdate(env: Env, g: GenState, oldSvc: Option<Service>, svc: Service): GenState {
    SetRouteForSvc(env, g, Some(svc), None)
  }

  function OnSvcDelete(g: GenState, svc: Service): GenState {
    UnsetRouteForSvc(g, svc.meta)
  }

  function OnEPAdd(env: Env, g: GenState, ep: Endpoints): GenState {
    SetRouteForSvc(env, g, None, Some(ep))
  }

  function OnEPUpdate(env: Env, g: GenState, oldEp: Option<Endpoints>, ep: Endpoints): GenState {
    SetRouteForSvc(env, g, None, Some(ep))
  }

  function OnEPDelete(g: GenState, ep: Endpoints): GenState {
    UnsetRouteForSvc(g, ep.meta)
  }

  /** The outcome of recomputing one service: its key ends up with exactly the
      resolver's route set, and nothing else in the generator moves but the
      counts of the routes it dropped or gained. */
  lemma SetRouteForSvcResult(env: Env, g: GenState, svc: Service)
    requires GInv(g) && MetaKey(svc.meta) in g.epIndex
    ensures CurrentRoutes(OnSvcAdd(env, g, svc), MetaKey(svc.meta)) ==
            ServiceRoutes(env, g, svc, g.epIndex[MetaKey(svc.meta)])
    ensures forall k :: k != MetaKey(svc.meta) ==> CurrentRoutes(OnSvcAdd(env, g, svc), k) == CurrentRoutes(g, k)
  {
  }

  lemma SetRouteForSvcPreservesGInv(env: Env, g: GenState, svc: Option<Service>, ep: Option<Endpoints>)
    requires GInv(g)
    ensures GInv(SetRouteForSvc(env, g, svc, ep))
    ensures Exact(g) ==> Exact(SetRouteForSvc(env, g, svc, ep))
  {
    if svc.None? && ep.None? {
    } else if ep.None? {
      var found := GetEndpointsForService(g, svc.value);
      if found.0.Some? {
        SetRoutesForKeyPreservesGInv(g, found.1, ServiceRoutes(env, g, svc.value, found.0.value));
      }
    } else if svc.None? {
      var found := GetServiceForEndpoints(g, ep.value);
      if found.0.Some? {
        SetRoutesForKeyPreservesGInv(g, found.1, ServiceRoutes(env, g, found.0.value, ep.value));
      }
    } else {
      SetRoutesForKeyPreservesGInv(g, MetaKey(svc.value.meta), ServiceRoutes(env, g, svc.value, ep.value));
    }
  }

  /** Delivering the same event twice has the effect of delivering it once:
      the second delivery changes no route and leaves the revision alone. */
  lemma SetRouteForSvcIdempotent(env: Env, g: GenState, svc: Option<Service>, ep: Option<Endpoints>)
    requires GInv(g)
    ensures SetRouteForSvc(env, SetRouteForSvc(env, g, svc, ep), svc, ep) == SetRouteForSvc(env, g, svc, ep)
  {
    var h := SetRouteForSvc(env, g, svc, ep);
    SetRouteForSvcPreservesGInv(env, g, svc, ep);
    if svc.None? && ep.None? {
    } else if ep.None? {
      var found := GetEndpointsForService(g, svc.value);
      if found.0.Some? {
        SetRoutesForKeyIdempotent(h, found.1);
      }
    } else if svc.None? {
      var found := GetServiceForEndpoints(g, ep.value);
      if found.0.Some? {
        SetRoutesForKeyIdempotent(h, found.1);
      }
    } else {
      SetRoutesForKeyIdempotent(h, MetaKey(svc.value.meta));
    }
  }

  // ---------------------------------------------------------------------
  // Range-list updates seen from the generator
  // ---------------------------------------------------------------------

  /** A range-list hook of the client, with the generator's state otherwise untouched. */
  function OnRangesUpdate(env: Env, g: GenState, cat: Category, next: seq<string>): GenState {
    g.(client := UpdateRanges(g.client, env.lib, cat, next))
  }

  /**
   * A range update keeps the generator invariant as long as no range it drops
   * claims the static-route key of an advertised route: dropping such a range
   * would release the reference the generator holds.
   */
  lemma OnRangesUpdatePreservesGInv(env: Env, g: GenState, cat: Category, next: seq<string>)
    requires GInv(g)
    requires forall r :: r in g.adv ==>
      StaticHits(env.lib, Dropped(Entries(g.client.ranges, cat), next), StaticRouteKey(r)) == 0
    ensures GInv(OnRangesUpdate(env, g, cat, next))
  {
    var h := OnRangesUpdate(env, g, cat, next);
    UpdateRangesPreservesInv(g.client, env.lib, cat, next);
    if ParseAll(env.lib, next).Some? {
      forall k ensures |KeyClaimants(h.adv, k)| <= Count(h.client, k) {
        UpdateRangesCount(g.client, env.lib, cat, next, k);
        if KeyClaimants(g.adv, k) != {} {
          var r :| r in KeyClaimants(g.adv, k);
        }
      }
    }
  }

  // ---------------------------------------------------------------------
  // resyncKnownRoutes
  // ---------------------------------------------------------------------

  /** The services of an indexer, in the order of the given keys. */
  function ServicesAt(m: map<string, Service>, ks: seq<string>): (r: seq<Service>)
    requires forall i :: 0 <= i < |ks| ==> ks[i] in m
    ensures |r| == |ks| && forall i :: 0 <= i < |ks| ==> r[i] == m[ks[i]]
  {
    if ks == [] then [] else [m[ks[0]]] + ServicesAt(m, ks[1..])
  }

  /** The indexed services in key order. */
  function IndexedServices(m: map<string, Service>): seq<Service> {
    var ks := SortedSeq(m.Keys);
    assert forall i :: 0 <= i < |ks| ==> ks[i] in m by {
      forall i | 0 <= i < |ks| ensures ks[i] in m {
        assert ks[i] in ks;
      }
    }
    ServicesAt(m, ks)
  }

  function ResyncServices(env: Env, g: GenState, svcs: seq<Service>): GenState
    decreases |svcs|
  {
    if svcs == [] then g
    else SetRouteForSvc(env, ResyncServices(env, g, svcs[..|svcs| - 1]), Some(svcs[|svcs| - 1]), None)
  }

  /** Recomputing one more service extends the recomputation of a prefix. */
  lemma ResyncServicesStep(env: Env, g: GenState, svcs: seq<Service>, i: nat)
    requires i < |svcs|
    ensures ResyncServices(env, g, svcs[..i + 1])
            == SetRouteForSvc(env, ResyncServices(env, g, svcs[..i]), Some(svcs[i]), None)
  {
    assert svcs[..i + 1][..i] == svcs[..i];
  }

  /** Recompute every indexed service against the current ranges. */
  function Resync(env: Env, g: GenState): GenState {
    ResyncServices(env, g, IndexedServices(g.svcIndex))
  }

  lemma {:induction false} ResyncServicesPreservesGInv(env: Env, g: GenState, svcs: seq<Service>)
    requires GInv(g)
    ensures GInv(ResyncServices(env, g, svcs))
    ensures Exact(g) ==> Exact(ResyncServices(env, g, svcs))
    decreases |svcs|
  {
    if svcs != [] {
      ResyncServicesPreservesGInv(env, g, svcs[..|svcs| - 1]);
      SetRouteForSvcPreservesGInv(env, ResyncServices(env, g, svcs[..|svcs| - 1]), Some(svcs[|svcs| - 1]), None);
    }
  }

  /** Every handler and resync keeps the generator invariant. */
  lemma HandlersPreserveGInv(env: Env, g: GenState, svc: Service, ep: Endpoints, oldSvc: Option<Service>, oldEp: Option<Endpoints>)
    requires GInv(g)
    ensures GInv(OnSvcAdd(env, g, svc)) && GInv(OnSvcUpdate(env, g, oldSvc, svc)) && GInv(OnSvcDelete(g, svc))
    ensures GInv(OnEPAdd(env, g, ep)) && GInv(OnEPUpdate(env, g, oldEp, ep)) && GInv(OnEPDelete(g, ep))
    ensures GInv(Resync(env, g))
  {
    SetRouteForSvcPreservesGInv(env, g, Some(svc), None);
    SetRouteForSvcPreservesGInv(env, g, None, Some(ep));
    SetRoutesForKeyPreservesGInv(g, MetaKey(svc.meta), {});
    SetRoutesForKeyPreservesGInv(g, MetaKey(ep.meta), {});
    ResyncServicesPreservesGInv(env, g, IndexedServices(g.svcIndex));
  }
}
