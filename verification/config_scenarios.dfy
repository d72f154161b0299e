/**
 * The scenarios of confd/pkg/backends/calico/routes_test.go that drive the
 * publishing client directly: a range-list hook fed valid and invalid CIDR
 * lists, and the IgnoredInterfaces entry of a BGP configuration.
 */
module ConfigScenarios {
  import opened Wrappers
  import opened Strings
  import opened Net
  import opened RangeIndex
  import opened Ledger
  import opened Scenarios

  /** The fixture client: an empty cache, nothing counted, the fixture ranges
      configured but not yet published. */
  const ClientFixture: ClientState := ClientState(map[], 0, map[], FixtureRanges)

  /** No configured text of the fixture contains '-'. */
  lemma FixtureEntriesDashFree(cat: Category)
    ensures DashFree(Entries(FixtureRanges, cat))
  {
    assert '-' !in "10.0.0.0/16" && '-' !in "104.244.42.129/32" && '-' !in "172.217.3.0/24";
  }

  /**
   * One range list replaced by the single range `a`, then by the single range
   * `b`: each range, when added, gets its reject entry and its static route,
   * both holding the range; once dropped, `a` loses its reject entry and its
   * last static-route reference.
   */
  lemma ReplaceSingleRange(c: ClientState, lib: NetLib, cat: Category, a: string, b: string)
    requires lib.parseCIDR(a).Some? && lib.parseCIDR(b).Some?
    requires !IsSingleHostText(lib, a) && !IsSingleHostText(lib, b)
    requires '-' !in a && '-' !in b && a != b
    requires DashFree(Entries(c.ranges, cat)) && a !in Entries(c.ranges, cat)
    requires Count(c, StaticRouteKey(a)) == 0 && Count(c, StaticRouteKey(b)) == 0
    ensures var c1 := UpdateRanges(c, lib, cat, [a]);
      && StaticRouteKey(a) in c1.cache && c1.cache[StaticRouteKey(a)] == a
      && RejectKey(a) in c1.cache && c1.cache[RejectKey(a)] == a
    ensures var c2 := UpdateRanges(UpdateRanges(c, lib, cat, [a]), lib, cat, [b]);
      && StaticRouteKey(b) in c2.cache && c2.cache[StaticRouteKey(b)] == b
      && RejectKey(b) in c2.cache && c2.cache[RejectKey(b)] == b
      && RejectKey(a) !in c2.cache && Count(c2, StaticRouteKey(a)) == 0
  {
    FirstRange(c, lib, cat, a, b);
    SecondRange(UpdateRanges(c, lib, cat, [a]), lib, cat, a, b);
  }

  lemma FirstRange(c: ClientState, lib: NetLib, cat: Category, a: string, b: string)
    requires lib.parseCIDR(a).Some? && !IsSingleHostText(lib, a)
    requires '-' !in a && '-' !in b && a != b
    requires DashFree(Entries(c.ranges, cat)) && a !in Entries(c.ranges, cat)
    requires Count(c, StaticRouteKey(a)) == 0 && Count(c, StaticRouteKey(b)) == 0
    ensures var c1 := UpdateRanges(c, lib, cat, [a]);
      && StaticRouteKey(a) in c1.cache && c1.cache[StaticRouteKey(a)] == a
      && RejectKey(a) in c1.cache && c1.cache[RejectKey(a)] == a
      && Entries(c1.ranges, cat) == [a]
      && Count(c1, StaticRouteKey(a)) == 1 && Count(c1, StaticRouteKey(b)) == 0
  {
    assert ParseAll(lib, [a]).Some?;
    assert DashFree([a]);
    UpdateRangesAdded(c, lib, cat, [a], a);
    // b is not among the ranges this update adds, so it gains no reference
    var cur := Entries(c.ranges, cat);
    DifferencesDistinct(cur, [a]);
    DifferencesDashFree(cur, [a]);
    assert b !in Added(cur, [a]);
    StaticHitsOfDistinct(lib, Added(cur, [a]), b);
    UpdateRangesCount(c, lib, cat, [a], StaticRouteKey(b));
  }

  lemma SecondRange(c1: ClientState, lib: NetLib, cat: Category, a: string, b: string)
    requires lib.parseCIDR(b).Some? && !IsSingleHostText(lib, a) && !IsSingleHostText(lib, b)
    requires '-' !in a && '-' !in b && a != b
    requires Entries(c1.ranges, cat) == [a]
    requires Count(c1, StaticRouteKey(a)) == 1 && Count(c1, StaticRouteKey(b)) == 0
    ensures var c2 := UpdateRanges(c1, lib, cat, [b]);
      && StaticRouteKey(b) in c2.cache && c2.cache[StaticRouteKey(b)] == b
      && RejectKey(b) in c2.cache && c2.cache[RejectKey(b)] == b
      && RejectKey(a) !in c2.cache && Count(c2, StaticRouteKey(a)) == 0
  {
    assert ParseAll(lib, [b]).Some?;
    assert DashFree([a]) && DashFree([b]);
    UpdateRangesAdded(c1, lib, cat, [b], b);
    UpdateRangesDropped(c1, lib, cat, [b], a);
  }

  /** The store keys of the two ranges the scenario configures. */
  lemma RangeKeys()
    ensures StaticRouteKey("192.168.0.0/16") == "/calico/staticroutes/192.168.0.0-16"
    ensures RejectKey("192.168.0.0/16") == "/calico/rejectcidrs/192.168.0.0-16"
    ensures StaticRouteKey("10.10.1.0/24") == "/calico/staticroutes/10.10.1.0-24"
    ensures RejectKey("10.10.1.0/24") == "/calico/rejectcidrs/10.10.1.0-24"
  {
    WideRangeKeys();
    NarrowRangeKeys();
  }

  lemma WideRangeKeys()
    ensures StaticRouteKey("192.168.0.0/16") == "/calico/staticroutes/192.168.0.0-16"
    ensures RejectKey("192.168.0.0/16") == "/calico/rejectcidrs/192.168.0.0-16"
  {
    CIDRKeyText("192.168.0.0", "16");
    assert "192.168.0.0" + "/" + "16" == "192.168.0.0/16";
    assert "192.168.0.0" + "-" + "16" == "192.168.0.0-16";
  }

  lemma NarrowRangeKeys()
    ensures StaticRouteKey("10.10.1.0/24") == "/calico/staticroutes/10.10.1.0-24"
    ensures RejectKey("10.10.1.0/24") == "/calico/rejectcidrs/10.10.1.0-24"
  {
    CIDRKeyText("10.10.1.0", "24");
    assert "10.10.1.0" + "/" + "24" == "10.10.1.0/24";
    assert "10.10.1.0" + "-" + "24" == "10.10.1.0-24";
  }

  /**
   * A range-list hook publishes 192.168.0.0/16 under its static-route and
   * reject keys; each of the three lists holding an unparsable entry is
   * refused and leaves the client as it was; 10.10.1.0/24 then replaces the
   * first range, which loses its reject entry and its static-route reference.
   */
  lemma UpdatesOnlyWithValidCIDRsScenario(lib: NetLib, cat: Category)
    requires FixtureParser(lib)
    ensures var c1 := UpdateRanges(ClientFixture, lib, cat, ["192.168.0.0/16"]);
      && "/calico/staticroutes/192.168.0.0-16" in c1.cache
      && c1.cache["/calico/staticroutes/192.168.0.0-16"] == "192.168.0.0/16"
      && "/calico/rejectcidrs/192.168.0.0-16" in c1.cache
      && c1.cache["/calico/rejectcidrs/192.168.0.0-16"] == "192.168.0.0/16"
      && UpdateRanges(c1, lib, cat, ["invalid"]) == c1
      && UpdateRanges(c1, lib, cat, ["10.10.1.0/24", "invalid"]) == c1
      && UpdateRanges(c1, lib, cat, ["10.10.1.0/24", "x.y.z.z/12"]) == c1
    ensures var c2 := UpdateRanges(UpdateRanges(ClientFixture, lib, cat, ["192.168.0.0/16"]), lib, cat, ["10.10.1.0/24"]);
      && "/calico/staticroutes/10.10.1.0-24" in c2.cache
      && c2.cache["/calico/staticroutes/10.10.1.0-24"] == "10.10.1.0/24"
      && "/calico/rejectcidrs/10.10.1.0-24" in c2.cache
      && c2.cache["/calico/rejectcidrs/10.10.1.0-24"] == "10.10.1.0/24"
      && "/calico/rejectcidrs/192.168.0.0-16" !in c2.cache
      && Count(c2, "/calico/staticroutes/192.168.0.0-16") == 0
  {
    var a, b := "192.168.0.0/16", "10.10.1.0/24";
    FixtureEntriesDashFree(cat);
    assert '-' !in a && '-' !in b;
    assert a !in Entries(FixtureRanges, cat);
    assert ParseAll(lib, ["invalid"]).None?;
    assert ParseAll(lib, [b, "invalid"]).None? by {
      assert lib.parseCIDR([b, "invalid"][1]).None?;
    }
    assert ParseAll(lib, [b, "x.y.z.z/12"]).None? by {
      assert lib.parseCIDR([b, "x.y.z.z/12"][1]).None?;
    }
    ReplaceSingleRange(ClientFixture, lib, cat, a, b);
    RangeKeys();
  }

  /** A client with an empty cache and no range configured. */
  const EmptyClient: ClientState := ClientState(map[], 0, map[], RangeConfig([], [], [], [], []))

  /**
   * Nothing is cached under the ignored-interfaces key at first; after a BGP
   * configuration listing iface-1 and iface-2 the key holds "iface-1,iface-2".
   */
  lemma IgnoredInterfacesScenario()
    ensures IgnoredInterfacesKey == "/calico/bgp/v1/global/ignored_interfaces"
    ensures IgnoredInterfacesKey !in EmptyClient.cache
    ensures var c := SetIgnoredInterfaces(EmptyClient, ["iface-1", "iface-2"]);
      IgnoredInterfacesKey in c.cache && c.cache[IgnoredInterfacesKey] == "iface-1,iface-2"
  {
    assert Join(["iface-1", "iface-2"], ",") == "iface-1" + "," + Join(["iface-2"], ",");
  }
}
