# Calico route advertisement and GlobalNetworkPolicy conversion, in Dafny

This project models two pieces of Calico.

**The confd route generator and its publishing client.** The route
generator watches Kubernetes Services and Endpoints. For every service that
qualifies, it advertises host routes to BIRD through the client's key/value
cache. A service qualifies when:

- its type is ClusterIP or LoadBalancer;
- its external traffic policy is Local;
- it has an endpoint address on this node.

It advertises:

- the cluster IPs, while a cluster range is configured;
- the external IPs that lie inside a configured external range;
- the load-balancer ingress IPs that lie inside a configured load-balancer
  range.

The generator keeps:

- the route set of each service (`svcRouteMap`);
- the number of services that claim each route
  (`routeAdvertisementRefCount`).

The client keeps:

- the cache with its revision counter;
- a reference count per programmed static-route key
  (`programmedRouteRefCount`);
- the configured cluster, external and load-balancer range lists.

The static-route key of a route is `/calico/staticroutes/<ip>-32` or
`/calico/staticroutesv6/<ip>-128`. A configured range is also published
under `/calico/rejectcidrs/<cidr with '/' replaced by '->`.

The model is layered:

- *Pure layer* (modules `Net`, `Kube`, `RangeIndex`, `Resolver`, `Ledger`,
  `Engine`, `Outcomes`). The resolver is a function from a service, its
  endpoints and the ranges to a route set. The ledger and the generator are
  state machines over values.
- *Objects* (`ClientStore.Client`, `Generator.RouteGenerator`). These are
  classes whose fields are the Go fields. Each method is proved to move the
  object to exactly the state the matching pure function gives.
- *Scenarios* (`Scenarios`, `HandlerScenarios`, `EndpointScenarios`,
  `ConfigScenarios`, `ResyncScenarios`). The behaviour the route
  generator's tests pin down, proved about the pure layer from the test
  fixtures.

**The GlobalNetworkPolicy v3 to v1 conversion** (module `PolicyConversion`).
It covers key validation, the selector rewrite (every `all()` is replaced
after each sub-selector is combined) and the field copy.

The main invariants are:

- `Engine.GInv`: every route's advertisement count is the number of services
  claiming it, and each advertised route holds one reference on its key.
- `Ledger.CInv`: every count entry is positive, names a static-route key and
  has a cache entry.

The headline results:

- every handler preserves `GInv`;
- the revision moves by one per key written or deleted;
- a route shared by two services is programmed once and withdrawn only with
  its last claimant;
- a range list with an unparseable entry changes nothing;
- the scenarios reproduce the tests' exact revisions, counts and cache keys.

## Model

| member | source | states |
|---|---|---|
| Net.Contains | confd/pkg/backends/calico/routes_test.go:548-555 | net.IPNet.Contains on (family, value) pairs: same family, a prefix within the width, and the first prefix bits agree; SingleHostContainsOnlyItsBase and Scenarios.Range1Admits are its properties |
| Net.SingleHost | confd/pkg/backends/calico/routes_test.go:605-609 | a range whose prefix is the full width of its family, a /32 or a /128; SingleHostContainsOnlyItsBase proves it holds exactly its base address |
| Net.Allowed | confd/pkg/backends/calico/routes_test.go:548-566 | an address text is admitted when it parses and some configured range contains it; Resolver.ExternalIPAdvertisedIffAllowed ties it to advertisement |
| Net.SingleHostContainsOnlyItsBase | confd/pkg/backends/calico/routes_test.go:588-594 | a /32 (or /128) range contains exactly its own base address |
| Kube.AddEndpointSubset | confd/pkg/backends/calico/routes_test.go:35-43 | appends exactly one subset with one address, no IP and this node's name, keeping the earlier subsets and the metadata |
| Kube.MetaKey | confd/pkg/backends/calico/routes_test.go:168-189 | the indexer key "namespace/name"; FixtureKeys gives foo/bar, foo/rem, foo/lb and foo/ext for the fixtures |
| Kube.BuildSimpleService | confd/pkg/backends/calico/routes_test.go:45-61 | foo/bar: ClusterIP, Local policy, cluster IPs 127.0.0.1 and ::1, external IPs 45.12.70.5 and 172.217.3.5, endpoints without subsets; Scenarios.Svc1Routes is what it resolves to |
| Kube.BuildSimpleService2 | confd/pkg/backends/calico/routes_test.go:63-79 | foo/rem: as foo/bar with cluster IPs 127.0.0.5 and ::5; Scenarios.Svc2Routes is what it resolves to |
| Kube.BuildSimpleService3 | confd/pkg/backends/calico/routes_test.go:81-102 | foo/lb: a LoadBalancer with cluster IPs 127.0.0.10 and ::a and ingress IP 172.217.4.10; Scenarios.Svc3Routes is what it resolves to |
| Kube.BuildSimpleService4 | confd/pkg/backends/calico/routes_test.go:104-120 | foo/ext: a LoadBalancer with cluster IPs 127.0.0.11 and ::b and external IP 45.12.70.7; Scenarios.Svc4Routes is what it resolves to |
| Kube.FixtureKeys | confd/pkg/backends/calico/routes_test.go:45-120 | each fixture service and its endpoints share the indexer key (foo/bar, foo/rem, foo/lb, foo/ext) |
| RangeIndex.WithEntries | confd/pkg/backends/calico/routes_test.go:150-163 | replacing one category's list changes that category's texts and parsed nets and no other category |
| RangeIndex.ParseAll | confd/pkg/backends/calico/routes_test.go:200-208 | succeeds iff every entry parses, and then yields each entry's parse in order |
| Strings.ReplaceAll | libcalico-go/lib/backend/syncersv1/updateprocessors/globalnetworkpolicyprocessor.go:66 | Go's strings.Replace(s, pat, rep, -1): the identity when the pattern does not occur; same length for an equal-length replacement |
| Strings.ReplaceAllLeavesNoOccurrence | libcalico-go/lib/backend/syncersv1/updateprocessors/globalnetworkpolicyprocessor.go:66 | when the replacement neither contains the pattern nor can start or end a new occurrence, the result contains no occurrence of the pattern |
| Strings.Join | confd/pkg/backends/calico/routes_test.go:775 | strings.Join: empty for no elements, the element itself for one |
| Strings.Split | confd/pkg/backends/calico/routes_test.go:774-775 | strings.Split on one separator character, always at least one piece; SplitJoin proves it undoes Join |
| Strings.SplitJoin | confd/pkg/backends/calico/routes_test.go:771-775 | joining separator-free words and splitting again gives the words back |
| Strings.SortedSeq | confd/pkg/backends/calico/routes_test.go:145 | the fixed iteration order used for Go maps: a strictly increasing sequence holding exactly the set's elements |
| Strings.SortedSeqDistinct | confd/pkg/backends/calico/routes_test.go:145 | that sequence has no duplicates |
| Resolver.AddFullIPLength | confd/pkg/backends/calico/routes_test.go:131-139 | an address text with a colon gets /128, any other /32; HostRouteShape and AddFullIPLengthInjective are its properties |
| Resolver.HasLocalEndpoint | confd/pkg/backends/calico/routes_test.go:319-358 | some address of some subset is on this node and usable under the address rule; EndpointScenarios.FlapResolves covers the three observed cases |
| Resolver.AdvertiseThisService | confd/pkg/backends/calico/routes_test.go:464-490 | ClusterIP or LoadBalancer, Local external traffic policy, and a local endpoint; IneligibleServiceHasNoRoutes is its partner |
| Resolver.AdvertisedRoutes | confd/pkg/backends/calico/routes_test.go:131-139 | for a qualifying service the host routes of its cluster IPs (while cluster ranges are configured), its admitted external IPs and, for a LoadBalancer, its admitted ingress IPs; AdvertisedRouteMembership states membership in both directions |
| Resolver.AddFullIPLengths | confd/pkg/backends/calico/routes_test.go:131-139 | maps each address to its host route, element by element |
| Resolver.FilterAllowed | confd/pkg/backends/calico/routes_test.go:553-555 | keeps exactly the non-empty addresses that parse and lie in some range |
| Resolver.HostRouteMembership | confd/pkg/backends/calico/routes_test.go:131-139 | a route is among the host routes of a list iff it is the host route of one of its addresses |
| Resolver.AdvertisedRouteMembership | confd/pkg/backends/calico/routes_test.go:362-373 | a route is advertised iff the service qualifies and the route comes from a cluster IP (while a cluster range exists), an admitted external IP, or an admitted load-balancer ingress IP of a LoadBalancer |
| Resolver.ExternalIPAdvertisedIffAllowed | confd/pkg/backends/calico/routes_test.go:548-569 | an external IP of a qualifying service is advertised iff it lies inside a configured external range |
| Resolver.HostRouteShape | confd/pkg/backends/calico/routes_test.go:132-134 | a host route starts with the address, is 3 (IPv4) or 4 (IPv6) characters longer, and ends in '2' or '8': enough for AddFullIPLengthInjective |
| Resolver.AddFullIPLengthInjective | confd/pkg/backends/calico/routes_test.go:132-134 | distinct addresses have distinct host routes |
| Resolver.AdvertisedRoutesAreHostRoutes | confd/pkg/backends/calico/routes_test.go:132-139 | every advertised route is an IPv4 /32 or an IPv6 /128 |
| Resolver.HostRouteDashFree | confd/pkg/backends/calico/routes_test.go:300-302 | a host route of a dash-free address has no dash |
| Resolver.AdvertisedRoutesDashFree | confd/pkg/backends/calico/routes_test.go:300-302 | a service with dash-free address texts advertises dash-free routes |
| Resolver.IneligibleServiceHasNoRoutes | confd/pkg/backends/calico/routes_test.go:304-317 | an ExternalName or NodePort service, a Cluster traffic policy, or no usable local address gives no routes |
| Ledger.KeyText | confd/pkg/backends/calico/routes_test.go:300-302 | the key text has the CIDR's length |
| Ledger.StaticRouteKey | confd/pkg/backends/calico/routes_test.go:300-302 | /calico/staticroutesv6/ for a text with a colon, /calico/staticroutes/ otherwise, followed by the key text; StaticRouteKeyInjective and StaticRouteKeyIsStatic are its properties |
| Ledger.RejectKey | confd/pkg/backends/calico/routes_test.go:191-213 | /calico/rejectcidrs/ followed by the key text; RejectKeyInjective is its property |
| Ledger.KeyTextIsReplaceAll | confd/pkg/backends/calico/routes_test.go:558 | the key text is strings.Replace(cidr, "/", "-", -1) |
| Ledger.KeyTextInjective | confd/pkg/backends/calico/routes_test.go:300-302 | dash-free CIDRs with equal key texts are equal |
| Ledger.CIDRKeyText | confd/pkg/backends/calico/routes_test.go:193-194 | the key text of address/length is address-length |
| Ledger.HostRouteKeyText | confd/pkg/backends/calico/routes_test.go:300-302 | the key text of ip/32 is ip-32 and of ip/128 is ip-128 |
| Ledger.StaticRouteKeyIsStatic | confd/pkg/backends/calico/routes_test.go:300-302 | every static-route key, IPv4 or IPv6, lies in the static-route key space |
| Ledger.OtherKeysAreNotStatic | confd/pkg/backends/calico/routes_test.go:194 | reject keys and the ignored-interfaces key lie outside the static-route key space |
| Ledger.StaticRouteKeyInjective | confd/pkg/backends/calico/routes_test.go:402-406 | distinct dash-free routes never share a static-route key |
| Ledger.StaticRouteKeysDistinct | confd/pkg/backends/calico/routes_test.go:402-406 | the contrapositive: distinct dash-free routes have distinct keys |
| Ledger.RejectKeysDistinct | confd/pkg/backends/calico/routes_test.go:558 | distinct dash-free ranges have distinct reject keys |
| Ledger.RejectKeyInjective | confd/pkg/backends/calico/routes_test.go:558 | equal reject keys of dash-free ranges mean equal ranges |
| Ledger.PutKey | confd/pkg/backends/calico/routes_test.go:293-302 | a write sets the key, leaves every other key, and moves the revision iff the value changes |
| Ledger.DeleteKey | confd/pkg/backends/calico/routes_test.go:309-317 | a delete removes the key, leaves every other key, and moves the revision iff the key was present |
| Ledger.SetKey | confd/pkg/backends/calico/routes_test.go:408-414 | one more reference on the key; the first writes the entry, later ones change neither cache nor revision |
| Ledger.UnsetKey | confd/pkg/backends/calico/routes_test.go:435-440 | one reference fewer; the last deletes the entry and the count key, others change neither cache nor revision |
| Ledger.SetKeyPreservesInv | confd/pkg/backends/calico/routes_test.go:408-414 | a reference keeps the ledger invariant, and the revision moves by one iff it is the first |
| Ledger.UnsetKeyPreservesInv | confd/pkg/backends/calico/routes_test.go:455-460 | dropping a reference keeps the invariant; at zero the key is gone from the cache and the counts, one revision later |
| Ledger.PutKeyPreservesInv | confd/pkg/backends/calico/routes_test.go:194 | writing a non-static key keeps the ledger invariant |
| Ledger.DeleteKeyPreservesInv | confd/pkg/backends/calico/routes_test.go:569 | deleting a non-static key keeps the ledger invariant |
| Ledger.UnpublishRange | confd/pkg/backends/calico/routes_test.go:210-212 | deletes the range's reject entry and, for a multi-host range, drops one reference on its static-route key; UnpublishAllCount and UnpublishAllRejectAbsent are its properties |
| Ledger.PublishRange | confd/pkg/backends/calico/routes_test.go:191-198 | writes the range's reject entry and, for a multi-host range, takes one reference on its static-route key; PublishAllCount and PublishAllRejectPresent are its properties |
| Ledger.UnpublishAll | confd/pkg/backends/calico/routes_test.go:561-569 | withdrawing ranges leaves the range lists alone |
| Ledger.PublishAll | confd/pkg/backends/calico/routes_test.go:549-558 | publishing ranges leaves the range lists alone |
| Ledger.UpdateRanges | confd/pkg/backends/calico/routes_test.go:191-213 | a list with any unparseable entry changes nothing; otherwise the dropped ranges are withdrawn, the added ones published, and the category replaced |
| Ledger.PublishAllCount | confd/pkg/backends/calico/routes_test.go:605-609 | publishing adds one reference per published range that claims the key and is not a single address |
| Ledger.UnpublishAllCount | confd/pkg/backends/calico/routes_test.go:621-629 | withdrawing removes one reference per such range, stopping at zero |
| Ledger.UpdateRangesCount | confd/pkg/backends/calico/routes_test.go:621-635 | a range update moves every key's count by the added and dropped ranges that claim it |
| Ledger.PublishAllPreservesInv | confd/pkg/backends/calico/routes_test.go:549-558 | publishing keeps the ledger invariant |
| Ledger.UnpublishAllPreservesInv | confd/pkg/backends/calico/routes_test.go:561-569 | withdrawing keeps the ledger invariant |
| Ledger.UpdateRangesPreservesInv | confd/pkg/backends/calico/routes_test.go:191-225 | every range update keeps the ledger invariant |
| Ledger.StaticHitsOfDistinct | confd/pkg/backends/calico/routes_test.go:605-609 | in a distinct dash-free list, a range's static key is claimed once if the range is listed and not a single address, else never |
| Ledger.PublishAllFrame | confd/pkg/backends/calico/routes_test.go:549-558 | publishing touches no non-static key except the published ranges' reject keys |
| Ledger.UnpublishAllFrame | confd/pkg/backends/calico/routes_test.go:561-569 | withdrawing touches no non-static key except the withdrawn ranges' reject keys |
| Ledger.PublishAllKeyFrame | confd/pkg/backends/calico/routes_test.go:605-609 | publishing leaves a static key no published range claims |
| Ledger.UnpublishAllKeyFrame | confd/pkg/backends/calico/routes_test.go:621-629 | withdrawing leaves a static key no withdrawn range claims |
| Ledger.UpdateRangesKeyFrame | confd/pkg/backends/calico/routes_test.go:621-629 | a range update leaves alone a static key that no dropped or added range claims: its entry and its count |
| Ledger.PublishAllRejectPresent | confd/pkg/backends/calico/routes_test.go:558 | every published range has its reject entry holding the range |
| Ledger.PublishAllStaticPresent | confd/pkg/backends/calico/routes_test.go:193 | a published range that is not a single address, on an unreferenced key, has its static entry holding the range |
| Ledger.UnpublishAllRejectAbsent | confd/pkg/backends/calico/routes_test.go:569 | every withdrawn range has lost its reject entry |
| Ledger.DifferencesDistinct | confd/pkg/backends/calico/routes_test.go:561-569 | the dropped and added lists are duplicate-free |
| Ledger.DifferencesDashFree | confd/pkg/backends/calico/routes_test.go:561-569 | the dropped and added lists of dash-free lists are dash-free |
| Ledger.UpdateRangesAdded | confd/pkg/backends/calico/routes_test.go:210-212 | an added range gets its reject entry and, unless it is a single address, one more static reference (and its static entry when the key was unreferenced) |
| Ledger.UpdateRangesDropped | confd/pkg/backends/calico/routes_test.go:561-569 | a dropped range loses its reject entry and, unless it is a single address, one static reference |
| Ledger.UpdateRangesKept | confd/pkg/backends/calico/routes_test.go:621-629 | a range in both lists keeps its reject entry and its static count |
| Ledger.SetIgnoredInterfaces | confd/pkg/backends/calico/routes_test.go:761-777 | the ignored-interfaces key holds the comma-joined names; an empty list deletes it; IgnoredInterfacesRoundTrip is its partner |
| Ledger.IgnoredInterfacesRoundTrip | confd/pkg/backends/calico/routes_test.go:761-777 | the published value splits back into the interface names; an empty list removes the key; no other key changes; the ledger invariant holds |
| ClientStore.Client.constructor | confd/pkg/backends/calico/routes_test.go:147-164 | a client with an empty cache, revision 0, no counts and the given, unpublished range lists |
| ClientStore.Client.PutKey | confd/pkg/backends/calico/routes_test.go:293-302 | the object moves as Ledger.PutKey |
| ClientStore.Client.DeleteKey | confd/pkg/backends/calico/routes_test.go:309-317 | the object moves as Ledger.DeleteKey |
| ClientStore.Client.SetKey | confd/pkg/backends/calico/routes_test.go:408-414 | the object moves as Ledger.SetKey |
| ClientStore.Client.UnsetKey | confd/pkg/backends/calico/routes_test.go:435-440 | the object moves as Ledger.UnsetKey |
| ClientStore.Client.ParseRanges | confd/pkg/backends/calico/routes_test.go:200-208 | the loop returns exactly RangeIndex.ParseAll |
| ClientStore.Client.UnpublishRanges | confd/pkg/backends/calico/routes_test.go:561-569 | the loop moves the object as Ledger.UnpublishAll |
| ClientStore.Client.PublishRanges | confd/pkg/backends/calico/routes_test.go:549-558 | the loop moves the object as Ledger.PublishAll |
| ClientStore.Client.UpdateRanges | confd/pkg/backends/calico/routes_test.go:191-213 | the object moves as Ledger.UpdateRanges |
| ClientStore.Client.OnClusterIPsUpdate | confd/pkg/backends/calico/routes_test.go:215-219 | Ledger.UpdateRanges on the cluster category |
| ClientStore.Client.OnExternalIPsUpdate | confd/pkg/backends/calico/routes_test.go:221-225 | Ledger.UpdateRanges on the external category |
| ClientStore.Client.OnLoadBalancerIPsUpdate | confd/pkg/backends/calico/routes_test.go:674-702 | Ledger.UpdateRanges on the load-balancer category |
| ClientStore.Client.SetIgnoredInterfaces | confd/pkg/backends/calico/routes_test.go:761-777 | the object moves as Ledger.SetIgnoredInterfaces |
| Engine.AdvertiseRoute | confd/pkg/backends/calico/routes_test.go:397-414 | one more claim on the route; the first claim takes a reference on its static key; nothing else changes |
| Engine.WithdrawRoute | confd/pkg/backends/calico/routes_test.go:418-440 | one claim fewer; the last removes the count entry and drops the key's reference; nothing else changes |
| Engine.WithdrawRouteHoldsReference | confd/pkg/backends/calico/routes_test.go:418-440 | withdrawing a route's last advertisement finds its key counted at least once and drops exactly one reference, so the generator never releases a reference it does not hold |
| Engine.AdvertiseAll | confd/pkg/backends/calico/routes_test.go:392-394 | advertising leaves the indexers, the route map and the ranges alone |
| Engine.WithdrawAll | confd/pkg/backends/calico/routes_test.go:418-419 | withdrawing leaves the indexers, the route map and the ranges alone |
| Engine.AdvertiseAllCount | confd/pkg/backends/calico/routes_test.go:397-401 | advertising a list adds one claim per occurrence of the route |
| Engine.WithdrawAllCount | confd/pkg/backends/calico/routes_test.go:420-424 | withdrawing a list removes one claim per occurrence, stopping at zero |
| Engine.DistinctOccurrences | confd/pkg/backends/calico/routes_test.go:397-401 | in a duplicate-free list a route occurs once or not at all |
| Engine.KeyClaimantsAdd | confd/pkg/backends/calico/routes_test.go:408-414 | a new advertised route adds one claimant to its own key only |
| Engine.KeyClaimantsRemove | confd/pkg/backends/calico/routes_test.go:435-440 | removing an advertised route removes one claimant from its own key only |
| Engine.KeyClaimantsUpdate | confd/pkg/backends/calico/routes_test.go:397-401 | changing a count leaves every key's claimants alone |
| Engine.AdvertiseRoutePreservesLInv | confd/pkg/backends/calico/routes_test.go:408-414 | one advertisement keeps the ledger-side invariant and exactness, and moves the revision by one only for a first claim on an unreferenced key |
| Engine.WithdrawRoutePreservesLInv | confd/pkg/backends/calico/routes_test.go:435-440 | one withdrawal keeps them, and moves the revision by one only for a last claim on a singly referenced key |
| Engine.AdvertiseAllPreservesLInv | confd/pkg/backends/calico/routes_test.go:392-394 | advertising a list keeps the ledger-side invariant and exactness |
| Engine.WithdrawAllPreservesLInv | confd/pkg/backends/calico/routes_test.go:418-419 | withdrawing a list keeps them |
| Engine.AdvertisedAreProgrammed | confd/pkg/backends/calico/routes_test.go:402-414 | every advertised route's key is counted and cached |
| Engine.KeyClaimantsOfDashFree | confd/pkg/backends/calico/routes_test.go:402-406 | with dash-free routes, a route's key is claimed by that route alone |
| Engine.AdvertiseAllDashFree | confd/pkg/backends/calico/routes_test.go:392-394 | advertising dash-free routes keeps the advertised routes dash-free, and adds only the listed routes |
| Engine.WithdrawAllDashFree | confd/pkg/backends/calico/routes_test.go:418-419 | withdrawing adds no advertised route |
| Engine.AdvertiseAllRevision | confd/pkg/backends/calico/routes_test.go:391-394 | advertising distinct routes moves the revision by exactly the number nobody advertised before |
| Engine.WithdrawAllRevision | confd/pkg/backends/calico/routes_test.go:418-419 | withdrawing distinct routes moves it by exactly the number that had one claimant |
| Engine.Assign | confd/pkg/backends/calico/routes_test.go:505-510 | setting a service's route set; an empty set removes the key; other keys are untouched |
| Engine.SetRoutesForKey | confd/pkg/backends/calico/routes_test.go:362-386 | records the new route set under the key and leaves indexers and ranges alone |
| Engine.ClaimantsAfterAssign | confd/pkg/backends/calico/routes_test.go:389-401 | setting one service's routes moves each route's claimant count by at most one, as the service drops or gains it |
| Engine.SetRoutesForKeyCount | confd/pkg/backends/calico/routes_test.go:389-424 | each route's advertisement count goes down by one if the service dropped it and up by one if it gained it |
| Engine.SetRoutesForKeyLedger | confd/pkg/backends/calico/routes_test.go:408-414 | setting a service's routes keeps the ledger-side invariant and exactness |
| Engine.SetRoutesForKeyClaims | confd/pkg/backends/calico/routes_test.go:397-401 | afterwards every route's count is its number of claiming services |
| Engine.SetRoutesForKeyPreservesGInv | confd/pkg/backends/calico/routes_test.go:389-460 | setting a service's routes keeps the generator invariant and exactness |
| Engine.SetRoutesForKeyRevision | confd/pkg/backends/calico/routes_test.go:391-394 | the revision moves by the number of routes this service alone held and drops plus the number nobody held that it gains |
| Engine.SetRoutesForKeyIdempotent | confd/pkg/backends/calico/routes_test.go:329-338 | setting the current route set again changes nothing |
| Engine.UnsetWithdraws | confd/pkg/backends/calico/routes_test.go:416-460 | dropping all of a service's routes removes its entry; a shared route stays advertised and cached; a route it alone held loses its count entry, cache entry and programmed count |
| Engine.IndexService | confd/pkg/backends/calico/routes_test.go:281-288 | the service store gains (or replaces) the object under its key |
| Engine.UnindexService | confd/pkg/backends/calico/routes_test.go:655-662 | the key leaves the service store |
| Engine.IndexEndpoints | confd/pkg/backends/calico/routes_test.go:273-280 | the endpoints store gains (or replaces) the object under its key |
| Engine.UnindexEndpoints | confd/pkg/backends/calico/routes_test.go:659-660 | the key leaves the endpoints store |
| Engine.GetServiceForEndpoints | confd/pkg/backends/calico/routes_test.go:168-178 | finds the service under the endpoints' namespace/name key, with that key; a miss gives none and "" |
| Engine.GetEndpointsForService | confd/pkg/backends/calico/routes_test.go:179-189 | finds the endpoints under the service's key, with that key; a miss gives none and "" |
| Engine.ServiceRoutes | confd/pkg/backends/calico/routes_test.go:131-139 | the resolver's routes, as a set, under the client's current ranges |
| Engine.SetRouteForSvc | confd/pkg/backends/calico/routes_test.go:227-255 | a missing half is looked up in the other store under the same key; a miss changes nothing; otherwise the key's routes become the resolver's set; SetRouteForSvcResult, SetRouteForSvcPreservesGInv and SetRouteForSvcIdempotent are its properties |
| Engine.UnsetRouteForSvc | confd/pkg/backends/calico/routes_test.go:238-239 | the key's route set becomes empty; UnsetWithdraws states what that withdraws |
| Engine.OnSvcAdd | confd/pkg/backends/calico/routes_test.go:361-373 | setRouteForSvc with the service alone; HandlersPreserveGInv keeps the invariant |
| Engine.OnSvcUpdate | confd/pkg/backends/calico/routes_test.go:464-490 | setRouteForSvc with the new service alone; the previous object plays no part |
| Engine.OnSvcDelete | confd/pkg/backends/calico/routes_test.go:375-386 | unsetRouteForSvc under the service's key |
| Engine.OnEPAdd | confd/pkg/backends/calico/routes_test.go:304-317 | setRouteForSvc with the endpoints alone; EndpointScenarios.EpAddIsSvcAdd equates it with onSvcAdd under a shared key |
| Engine.OnEPUpdate | confd/pkg/backends/calico/routes_test.go:520-545 | setRouteForSvc with the new endpoints alone; the previous object plays no part |
| Engine.OnEPDelete | confd/pkg/backends/calico/routes_test.go:493-517 | unsetRouteForSvc under the endpoints' key; EndpointScenarios.EpDeleteIsSvcDelete equates it with onSvcDelete |
| Engine.SetRouteForSvcResult | confd/pkg/backends/calico/routes_test.go:362-367 | after onSvcAdd the service's key holds exactly the resolver's route set; every other key is unchanged |
| Engine.SetRouteForSvcPreservesGInv | confd/pkg/backends/calico/routes_test.go:226-255 | setRouteForSvc, with either half or both, keeps the generator invariant and exactness |
| Engine.SetRouteForSvcIdempotent | confd/pkg/backends/calico/routes_test.go:329-338 | delivering the same event twice equals delivering it once |
| Engine.OnRangesUpdate | confd/pkg/backends/calico/routes_test.go:547-570 | a range-list hook of the client with the generator's own state unchanged; OnRangesUpdatePreservesGInv and Outcomes.OnRangesUpdateOwned are its properties |
| Engine.OnRangesUpdatePreservesGInv | confd/pkg/backends/calico/routes_test.go:588-650 | a range update keeps the generator invariant unless it drops a range that claims an advertised route's key |
| Engine.ResyncServices | confd/pkg/backends/calico/routes_test.go:548-551 | setRouteForSvc for each listed service in turn; ResyncServicesPreservesGInv and Outcomes.ResyncServicesRoutes are its properties |
| Engine.Resync | confd/pkg/backends/calico/routes_test.go:548-551 | resyncKnownRoutes: ResyncServices over the indexed services in key order; Outcomes.ResyncRoutes states the result |
| Engine.ServicesAt | confd/pkg/backends/calico/routes_test.go:551 | the indexed services in the given key order |
| Engine.ResyncServicesPreservesGInv | confd/pkg/backends/calico/routes_test.go:551 | recomputing a list of services keeps the generator invariant and exactness |
| Engine.HandlersPreserveGInv | confd/pkg/backends/calico/routes_test.go:291-545 | all six handlers and the resync keep the generator invariant |
| Outcomes.OwnedMeaning | confd/pkg/backends/calico/routes_test.go:591-650 | an owned route's key holds the route with one reference while it is advertised, and is neither cached nor counted otherwise |
| Outcomes.ExactOwnsUnadvertised | confd/pkg/backends/calico/routes_test.go:598-601 | without range references an unadvertised route is owned |
| Outcomes.AdvertiseRouteOwned | confd/pkg/backends/calico/routes_test.go:408-414 | one advertisement keeps every dash-free route owned |
| Outcomes.WithdrawRouteOwned | confd/pkg/backends/calico/routes_test.go:435-440 | one withdrawal keeps every dash-free route owned |
| Outcomes.AdvertiseAllOwned | confd/pkg/backends/calico/routes_test.go:392-394 | advertising a list keeps ownership |
| Outcomes.WithdrawAllOwned | confd/pkg/backends/calico/routes_test.go:418-419 | withdrawing advertised routes keeps ownership |
| Outcomes.SetRoutesForKeyOwned | confd/pkg/backends/calico/routes_test.go:389-460 | setting a service's routes keeps ownership |
| Outcomes.SetRoutesForKeyDashFree | confd/pkg/backends/calico/routes_test.go:389-460 | setting dash-free routes keeps the advertised routes dash-free |
| Outcomes.SetRoutesForKeyRevisionBySets | confd/pkg/backends/calico/routes_test.go:391-394 | the revision moves by the released routes (dropped and alone) plus the fresh routes (gained and unclaimed) |
| Outcomes.AdvertiseAllNonStatic | confd/pkg/backends/calico/routes_test.go:392-394 | advertising leaves every non-static cache entry |
| Outcomes.WithdrawAllNonStatic | confd/pkg/backends/calico/routes_test.go:418-419 | withdrawing leaves every non-static cache entry |
| Outcomes.SetRoutesForKeyNonStatic | confd/pkg/backends/calico/routes_test.go:389-460 | setting a service's routes leaves every non-static cache entry |
| Outcomes.NothingAdvertisedNoStaticRoutes | confd/pkg/backends/calico/routes_test.go:317 | with nothing advertised and no range references, the cache holds only non-static entries |
| Outcomes.SetRouteForSvcFrame | confd/pkg/backends/calico/routes_test.go:551 | recomputing one service moves only its own key and keeps indexers, ranges and non-static entries |
| Outcomes.ResyncServicesRoutes | confd/pkg/backends/calico/routes_test.go:551 | recomputing distinct services gives each the resolver's route set and leaves every other key |
| Outcomes.ResyncStep | confd/pkg/backends/calico/routes_test.go:551 | the inductive step of the above: one more service on the list |
| Outcomes.ResyncRoutes | confd/pkg/backends/calico/routes_test.go:551 | after resyncKnownRoutes every indexed service with endpoints has the resolver's route set under the current ranges; other keys keep theirs |
| Outcomes.ServiceRoutesDashFree | confd/pkg/backends/calico/routes_test.go:300-302 | a service with dash-free texts resolves to dash-free routes |
| Outcomes.SetRouteForSvcOwned | confd/pkg/backends/calico/routes_test.go:591-650 | setRouteForSvc keeps the generator invariant, dash-freedom and ownership |
| Outcomes.UnsetRouteForSvcOwned | confd/pkg/backends/calico/routes_test.go:637-643 | unsetRouteForSvc keeps them |
| Outcomes.ResyncServicesOwned | confd/pkg/backends/calico/routes_test.go:611-619 | recomputing a list of services keeps them |
| Outcomes.ResyncOwned | confd/pkg/backends/calico/routes_test.go:611-635 | a resync keeps them |
| Outcomes.OnRangesUpdateOwned | confd/pkg/backends/calico/routes_test.go:603-609 | a range update that neither drops nor adds a range claiming the route's key keeps the route owned |
| Generator.RouteGenerator.constructor | confd/pkg/backends/calico/routes_test.go:141-165 | a generator with empty indexers, route map and counts over the given client |
| Generator.RouteGenerator.IndexService | confd/pkg/backends/calico/routes_test.go:172 | the service indexer gains the service under its key; nothing else changes |
| Generator.RouteGenerator.UnindexService | confd/pkg/backends/calico/routes_test.go:661 | the service indexer loses the key; nothing else changes |
| Generator.RouteGenerator.IndexEndpoints | confd/pkg/backends/calico/routes_test.go:183 | the endpoints indexer gains the endpoints under their key; nothing else changes |
| Generator.RouteGenerator.UnindexEndpoints | confd/pkg/backends/calico/routes_test.go:659 | the endpoints indexer loses the key; nothing else changes |
| Generator.RouteGenerator.AdvertiseRoute | confd/pkg/backends/calico/routes_test.go:397-414 | the objects move as Engine.AdvertiseRoute |
| Generator.RouteGenerator.WithdrawRoute | confd/pkg/backends/calico/routes_test.go:418-440 | the objects move as Engine.WithdrawRoute |
| Generator.RouteGenerator.AdvertiseRoutes | confd/pkg/backends/calico/routes_test.go:392-394 | the loop moves the objects as Engine.AdvertiseAll |
| Generator.RouteGenerator.WithdrawRoutes | confd/pkg/backends/calico/routes_test.go:418-419 | the loop moves the objects as Engine.WithdrawAll |
| Generator.RouteGenerator.SetRoutesForKey | confd/pkg/backends/calico/routes_test.go:362-386 | the objects move as Engine.SetRoutesForKey |
| Generator.RouteGenerator.GetServiceForEndpoints | confd/pkg/backends/calico/routes_test.go:168-178 | returns Engine.GetServiceForEndpoints and changes nothing |
| Generator.RouteGenerator.GetEndpointsForService | confd/pkg/backends/calico/routes_test.go:179-189 | returns Engine.GetEndpointsForService and changes nothing |
| Generator.RouteGenerator.RoutesFor | confd/pkg/backends/calico/routes_test.go:362-367 | returns the resolver's route set under the client's current ranges |
| Generator.RouteGenerator.SetRouteForSvc | confd/pkg/backends/calico/routes_test.go:226-255 | the objects move as Engine.SetRouteForSvc |
| Generator.RouteGenerator.UnsetRouteForSvc | confd/pkg/backends/calico/routes_test.go:238-239 | the objects move as Engine.UnsetRouteForSvc |
| Generator.RouteGenerator.OnSvcAdd | confd/pkg/backends/calico/routes_test.go:365-373 | the objects move as Engine.OnSvcAdd, keeping the generator invariant |
| Generator.RouteGenerator.OnSvcUpdate | confd/pkg/backends/calico/routes_test.go:467-489 | the objects move as Engine.OnSvcUpdate, keeping the invariant |
| Generator.RouteGenerator.OnSvcDelete | confd/pkg/backends/calico/routes_test.go:376-386 | the objects move as Engine.OnSvcDelete, keeping the invariant |
| Generator.RouteGenerator.OnEPAdd | confd/pkg/backends/calico/routes_test.go:497-505 | the objects move as Engine.OnEPAdd, keeping the invariant |
| Generator.RouteGenerator.OnEPUpdate | confd/pkg/backends/calico/routes_test.go:523-543 | the objects move as Engine.OnEPUpdate, keeping the invariant |
| Generator.RouteGenerator.OnEPDelete | confd/pkg/backends/calico/routes_test.go:508-516 | the objects move as Engine.OnEPDelete, keeping the invariant |
| Generator.RouteGenerator.ResyncKnownRoutes | confd/pkg/backends/calico/routes_test.go:551 | the loop moves the objects as Engine.Resync, keeping the invariant |
| Scenarios.SameFamilyRuleFits | confd/pkg/backends/calico/routes_test.go:319-358 | the same-family local-address rule meets the three observations of the tests |
| Scenarios.Pow2Values | confd/pkg/backends/calico/routes_test.go:128-129 | the powers of two the fixture prefixes need |
| Scenarios.FixtureNetsAdmit | confd/pkg/backends/calico/routes_test.go:128-134 | the initial external ranges admit 172.217.3.5 and neither 45.12.70.5 nor 45.12.70.7 |
| Scenarios.Range1Admits | confd/pkg/backends/calico/routes_test.go:548-555 | 45.12.0.0/16 admits 45.12.70.5 and 45.12.70.7, not 172.217.3.5 |
| Scenarios.SingleRangesAdmit | confd/pkg/backends/calico/routes_test.go:560-566 | each /32 range admits its own address only |
| Scenarios.HostSetConcat | confd/pkg/backends/calico/routes_test.go:131-139 | the host routes of a concatenation are the union of the host routes |
| Scenarios.HostSetPair | confd/pkg/backends/calico/routes_test.go:52 | the host routes of two addresses |
| Scenarios.HostSetOne | confd/pkg/backends/calico/routes_test.go:113 | the host route of one address |
| Scenarios.FilterPair | confd/pkg/backends/calico/routes_test.go:54 | filtering two external addresses keeps the admitted ones, in order |
| Scenarios.FilterOne | confd/pkg/backends/calico/routes_test.go:113 | filtering one address keeps it iff admitted |
| Scenarios.FixtureHostRoutes | confd/pkg/backends/calico/routes_test.go:131-139 | the host routes of every fixture address |
| Scenarios.QualifyingRoutes | confd/pkg/backends/calico/routes_test.go:362-373 | a qualifying service's routes are its cluster, admitted external and admitted ingress host routes |
| Scenarios.HostSetOfFiltered | confd/pkg/backends/calico/routes_test.go:131-134 | the host routes of the admitted addresses among two |
| Scenarios.Svc1Routes | confd/pkg/backends/calico/routes_test.go:45-61 | foo/bar resolves to 127.0.0.1/32 and ::1/128 while a cluster range exists, plus each admitted external IP |
| Scenarios.Svc2Routes | confd/pkg/backends/calico/routes_test.go:63-79 | foo/rem resolves to 127.0.0.5/32 and ::5/128 likewise, plus each admitted external IP |
| Scenarios.Svc3Routes | confd/pkg/backends/calico/routes_test.go:81-102 | foo/lb resolves to its cluster routes and 172.217.4.10/32 when a load-balancer range admits it |
| Scenarios.Svc4Routes | confd/pkg/backends/calico/routes_test.go:104-120 | foo/ext resolves to its cluster routes and 45.12.70.7/32 when an external range admits it |
| HandlerScenarios.FixtureTextsDashFree | confd/pkg/backends/calico/routes_test.go:45-120 | no fixture address contains a dash |
| HandlerScenarios.FixtureTracked | confd/pkg/backends/calico/routes_test.go:263-289 | the handler fixture satisfies every invariant the scenarios carry |
| HandlerScenarios.SetRouteForSvcTracked | confd/pkg/backends/calico/routes_test.go:226-255 | setRouteForSvc keeps those invariants |
| HandlerScenarios.SetRouteForSvcKeepsIndexes | confd/pkg/backends/calico/routes_test.go:226-255 | setRouteForSvc writes neither indexer nor the ranges |
| HandlerScenarios.UnsetRouteForSvcTracked | confd/pkg/backends/calico/routes_test.go:238-239 | unsetRouteForSvc keeps the invariants |
| HandlerScenarios.Observe | confd/pkg/backends/calico/routes_test.go:297-302 | a route's count is its number of claiming services; advertised means cached once, unadvertised means neither cached nor counted |
| HandlerScenarios.ClaimantsOfOne | confd/pkg/backends/calico/routes_test.go:368-370 | the claimants of a route with one service recorded |
| HandlerScenarios.ClaimantsOfTwo | confd/pkg/backends/calico/routes_test.go:397-401 | the claimants of a route with two services recorded |
| HandlerScenarios.FixtureEndpointsLocal | confd/pkg/backends/calico/routes_test.go:269-272 | every fixture endpoints object has a usable address on this node |
| HandlerScenarios.FixtureResolves | confd/pkg/backends/calico/routes_test.go:131-139 | under the fixture ranges foo/bar and foo/rem resolve to the tests' expected route maps |
| HandlerScenarios.BarKeys | confd/pkg/backends/calico/routes_test.go:300-302 | the store keys of foo/bar's three routes |
| HandlerScenarios.RemKeys | confd/pkg/backends/calico/routes_test.go:404-405 | the store keys of foo/rem's own two routes |
| HandlerScenarios.ObserveOne | confd/pkg/backends/calico/routes_test.go:368-373 | with one service recorded its routes are programmed once and every other route is withdrawn |
| HandlerScenarios.ObserveTwo | confd/pkg/backends/calico/routes_test.go:397-414 | with two services recorded a shared route counts twice and is cached once; a route of one counts once |
| HandlerScenarios.ObserveNone | confd/pkg/backends/calico/routes_test.go:381-386 | with no service recorded every route is withdrawn |
| HandlerScenarios.SvcStep | confd/pkg/backends/calico/routes_test.go:365-366 | onSvcAdd records the resolver's set and moves the revision by released plus fresh routes |
| HandlerScenarios.EpStep | confd/pkg/backends/calico/routes_test.go:497-498 | onEPAdd likewise |
| HandlerScenarios.DeleteStep | confd/pkg/backends/calico/routes_test.go:376-377 | a delete removes the key and moves the revision by the released routes |
| HandlerScenarios.FixtureFresh | confd/pkg/backends/calico/routes_test.go:263-289 | the fixture starts with no route recorded or advertised |
| HandlerScenarios.FirstAdd | confd/pkg/backends/calico/routes_test.go:364-366 | the first add records the route set and takes one revision per route |
| HandlerScenarios.SoleServiceProgrammed | confd/pkg/backends/calico/routes_test.go:367-373 | with one service recorded each of its routes is programmed once |
| HandlerScenarios.DeleteSoleService | confd/pkg/backends/calico/routes_test.go:376-377 | deleting the only service takes one revision per route and empties the route map |
| HandlerScenarios.NoServiceWithdrawn | confd/pkg/backends/calico/routes_test.go:381-386 | with no service recorded every route is withdrawn |
| HandlerScenarios.AddThenDelete | confd/pkg/backends/calico/routes_test.go:362-387 | add then delete on a fresh generator: +n and every route programmed once, then +2n with every route withdrawn and no entry left |
| HandlerScenarios.BarStartsFresh | confd/pkg/backends/calico/routes_test.go:263-289 | the fixture is fresh and foo/bar is indexed with its expected routes |
| HandlerScenarios.RemIndexed | confd/pkg/backends/calico/routes_test.go:263-289 | foo/rem is indexed with its expected routes |
| HandlerScenarios.SvcAddThenDelete | confd/pkg/backends/calico/routes_test.go:362-387 | onSvcAdd of foo/bar: revision +3, its three keys hold their routes with one reference each; onSvcDelete: +6, no entry, all three keys and counts gone |
| HandlerScenarios.BarAddThenDelete | confd/pkg/backends/calico/routes_test.go:362-387 | the same observations, read off the add-then-delete outcome |
| HandlerScenarios.ExpectedSizes | confd/pkg/backends/calico/routes_test.go:131-139 | the sizes of the expected route maps and of their differences |
| HandlerScenarios.BarProgrammed | confd/pkg/backends/calico/routes_test.go:368-373 | foo/bar's routes read under their literal keys, programmed |
| HandlerScenarios.BarWithdrawn | confd/pkg/backends/calico/routes_test.go:381-386 | foo/bar's routes read under their literal keys, withdrawn |
| HandlerScenarios.SoleServiceCounts | confd/pkg/backends/calico/routes_test.go:392 | with one service recorded a route counts one iff that service claims it |
| HandlerScenarios.TwoServicesCounts | confd/pkg/backends/calico/routes_test.go:397-401 | with two services recorded a route counts once per claiming service |
| HandlerScenarios.SecondFresh | confd/pkg/backends/calico/routes_test.go:393-394 | the second service's fresh routes are those the first does not claim |
| HandlerScenarios.SecondAdd | confd/pkg/backends/calico/routes_test.go:393-394 | adding the second service records both and moves the revision by its unshared routes |
| HandlerScenarios.TwoServicesProgrammed | confd/pkg/backends/calico/routes_test.go:397-414 | the shared route counts two, the others one, every key cached once |
| HandlerScenarios.SecondReleased | confd/pkg/backends/calico/routes_test.go:418-419 | deleting the second service releases exactly its unshared routes |
| HandlerScenarios.DeleteSecond | confd/pkg/backends/calico/routes_test.go:418-440 | deleting the second service keeps the first's routes, withdraws its own, and moves the revision by their number |
| HandlerScenarios.TwoServicesShareRoute | confd/pkg/backends/calico/routes_test.go:389-460 | the generic two-service outcome: revisions +n1+d, +d, +n1; shared route counted twice and programmed once, withdrawn only with both gone |
| HandlerScenarios.SharedRouteScenario | confd/pkg/backends/calico/routes_test.go:389-460 | foo/bar and foo/rem: revision +5, 172.217.3.5/32 counted 2 and cached once; +7 after deleting foo/rem with its own keys and counts gone; +10 after deleting both with every key and count gone |
| HandlerScenarios.SharedRouteAdded | confd/pkg/backends/calico/routes_test.go:391-414 | the observations after both adds |
| HandlerScenarios.SharedRouteRemDeleted | confd/pkg/backends/calico/routes_test.go:416-440 | the observations after deleting foo/rem |
| HandlerScenarios.SharedRouteBothDeleted | confd/pkg/backends/calico/routes_test.go:442-460 | the observations after deleting both |
| HandlerScenarios.SharedCounted | confd/pkg/backends/calico/routes_test.go:401 | the shared route, counted twice, under its literal key |
| HandlerScenarios.BarOnlyProgrammed | confd/pkg/backends/calico/routes_test.go:397-398 | foo/bar's own routes, programmed once |
| HandlerScenarios.RemProgrammed | confd/pkg/backends/calico/routes_test.go:399-400 | foo/rem's own routes, programmed once |
| HandlerScenarios.RemWithdrawn | confd/pkg/backends/calico/routes_test.go:432-440 | foo/rem's own routes, withdrawn |
| HandlerScenarios.AllWithdrawn | confd/pkg/backends/calico/routes_test.go:448-460 | all five routes withdrawn |
| EndpointScenarios.EpAddIsSvcAdd | confd/pkg/backends/calico/routes_test.go:493-517 | with the service and its endpoints indexed under one key, onEPAdd, onEPUpdate and onSvcUpdate each give exactly the state onSvcAdd gives |
| EndpointScenarios.IneligibleIsUnset | confd/pkg/backends/calico/routes_test.go:478-490 | a recomputation that resolves to no route is unsetRouteForSvc of the service |
| EndpointScenarios.EpDeleteIsSvcDelete | confd/pkg/backends/calico/routes_test.go:507-517 | onEPDelete of endpoints sharing the service's key gives exactly the state onSvcDelete gives |
| EndpointScenarios.ReindexTracked | confd/pkg/backends/calico/routes_test.go:303-306 | replacing an object in an informer store keeps every tracked invariant, given dash-free service texts |
| EndpointScenarios.IndexServiceDashFree | confd/pkg/backends/calico/routes_test.go:477-479 | indexing a service whose texts carry no dash keeps the index dash-free |
| EndpointScenarios.NoServiceEmptyCache | confd/pkg/backends/calico/routes_test.go:307-317 | with no service recorded and no configuration entry cached, nothing is advertised, the cache is empty and every route is withdrawn |
| EndpointScenarios.SetRouteForSvcNonStatic | confd/pkg/backends/calico/routes_test.go:227-255 | setRouteForSvc writes no entry outside the static-route keys, for every combination of given halves |
| EndpointScenarios.AddFromClean | confd/pkg/backends/calico/routes_test.go:291-301 | recomputing a service from a clean generator moves the revision by its route count, records its set and programs each route once; no route leaves the generator clean |
| EndpointScenarios.WithdrawSole | confd/pkg/backends/calico/routes_test.go:303-317 | recomputing the sole service to no route withdraws each of its routes, one revision each, and leaves an empty cache and no entry |
| EndpointScenarios.AddThenIneligible | confd/pkg/backends/calico/routes_test.go:291-317 | a service added and then re-indexed so that it no longer qualifies: its routes are programmed once each, then all withdrawn |
| EndpointScenarios.BarCycle | confd/pkg/backends/calico/routes_test.go:291-317 | the add-then-withdraw outcome of foo/bar read under its literal keys: +3 and programmed once, +6 and withdrawn with an empty cache |
| EndpointScenarios.BarSole | confd/pkg/backends/calico/routes_test.go:338-357 | foo/bar recorded alone, read under its literal keys |
| EndpointScenarios.FlapResolves | confd/pkg/backends/calico/routes_test.go:303-357 | foo/bar resolves to nothing with no subset or with only the IPv6 address, and to its expected routes with the IPv4 address |
| EndpointScenarios.FlapHolds | confd/pkg/backends/calico/routes_test.go:291-358 | the stage outcomes of the endpoints scenario hold from the fixture |
| EndpointScenarios.EndpointsFlapScenario | confd/pkg/backends/calico/routes_test.go:291-358 | foo/bar added: +3, its three routes programmed; endpoints emptied: +6, nothing advertised, empty cache; back with an IPv6 address: still +6 and empty; back with an IPv4 address: +9 and the three routes programmed again |
| EndpointScenarios.FlapObserved | confd/pkg/backends/calico/routes_test.go:291-358 | the same observations, read off the stage outcomes |
| EndpointScenarios.RetypeHolds | confd/pkg/backends/calico/routes_test.go:464-545 | both retype cycles hold from the fixture |
| EndpointScenarios.RetypeSvcCycle | confd/pkg/backends/calico/routes_test.go:464-490 | a service set to ExternalName in the store and updated again withdraws every route it programmed |
| EndpointScenarios.RetypeSame | confd/pkg/backends/calico/routes_test.go:520-545 | with the service indexed, onEPUpdate of its endpoints takes the same two steps as onSvcUpdate |
| EndpointScenarios.SvcRetypeScenario | confd/pkg/backends/calico/routes_test.go:464-490 | onSvcUpdate of foo/bar: +3 and its routes programmed; retyped to ExternalName and updated: +6, no entry, empty cache, all three withdrawn |
| EndpointScenarios.EpRetypeScenario | confd/pkg/backends/calico/routes_test.go:520-545 | the same cycle driven by onEPUpdate of foo/bar's endpoints |
| EndpointScenarios.RetypeObserved | confd/pkg/backends/calico/routes_test.go:464-545 | the observations of both cycles, read off their outcomes |
| EndpointScenarios.EpAddDeleteHolds | confd/pkg/backends/calico/routes_test.go:493-517 | on a fresh generator onEPAdd and onEPDelete are onSvcAdd and onSvcDelete, with the add-then-delete outcome |
| EndpointScenarios.EpAddThenDeleteScenario | confd/pkg/backends/calico/routes_test.go:493-517 | onEPAdd of foo/bar: +3 and its routes programmed; onEPDelete: +6, no entry, all three withdrawn |
| EndpointScenarios.EpAddDeleteObserved | confd/pkg/backends/calico/routes_test.go:493-517 | the same observations, read off the outcome |
| EndpointScenarios.SetUnsetScenario | confd/pkg/backends/calico/routes_test.go:227-255 | with only the endpoints indexed setRouteForSvc(svc, nil) records foo/bar's routes, and with only the service indexed setRouteForSvc(nil, ep) does; unsetRouteForSvc then drops foo/bar |
| EndpointScenarios.LookupScenario | confd/pkg/backends/calico/routes_test.go:168-189 | each lookup finds the other half under foo/bar and returns that key |
| ConfigScenarios.FixtureEntriesDashFree | confd/pkg/backends/calico/routes_test.go:127-163 | no configured range text of the fixture contains a dash |
| ConfigScenarios.ReplaceSingleRange | confd/pkg/backends/calico/routes_test.go:191-213 | a list set to one range publishes its reject entry and static route; replaced by a second range, the second is published and the first loses its reject entry and its last reference |
| ConfigScenarios.FirstRange | confd/pkg/backends/calico/routes_test.go:194-199 | the first range is published with one reference, and the second range has none |
| ConfigScenarios.SecondRange | confd/pkg/backends/calico/routes_test.go:207-212 | the second range replaces the first, which is unpublished |
| ConfigScenarios.RangeKeys | confd/pkg/backends/calico/routes_test.go:196-212 | the literal static-route and reject keys of 192.168.0.0/16 and 10.10.1.0/24 |
| ConfigScenarios.UpdatesOnlyWithValidCIDRsScenario | confd/pkg/backends/calico/routes_test.go:191-225 | 192.168.0.0/16 is published under both keys; each list holding "invalid" or "x.y.z.z/12" leaves the client unchanged; 10.10.1.0/24 then replaces the first range, whose reject entry and count go |
| ConfigScenarios.IgnoredInterfacesScenario | confd/pkg/backends/calico/routes_test.go:761-777 | the key is absent at first and holds "iface-1,iface-2" after a configuration listing both interfaces |
| ResyncScenarios.ResyncClaims | confd/pkg/backends/calico/routes_test.go:598-616 | after resyncKnownRoutes a route's claimants are exactly the indexed services that resolve to it, a route is advertised iff one does, and the indexes, ranges and configuration entries are unchanged |
| ResyncScenarios.ResyncKeepsIndexed | confd/pkg/backends/calico/routes_test.go:598-616 | after a resync only indexed services hold recorded routes |
| ResyncScenarios.ResyncClaimants | confd/pkg/backends/calico/routes_test.go:598-616 | the claimants of a route after a resync are the indexed services resolving to it |
| ResyncScenarios.ResyncObserved | confd/pkg/backends/calico/routes_test.go:598-621 | a resync shows a route iff some indexed service resolves to it, and otherwise leaves no cache or count entry |
| ResyncScenarios.RangeStep | confd/pkg/backends/calico/routes_test.go:604-636 | a range update that drops no advertised multi-host range leaves the generator's route map, counts and indexes alone and replaces the category's list and nets |
| ResyncScenarios.RejectKept | confd/pkg/backends/calico/routes_test.go:548-570 | a step that keeps the configuration entries keeps each reject entry |
| ResyncScenarios.DeleteObserved | confd/pkg/backends/calico/routes_test.go:638-641 | withdrawing a service removes it from every route's claimants and changes neither index nor ranges |
| ResyncScenarios.CacheValue | confd/pkg/backends/calico/routes_test.go:600-601 | a read of a missing key gives "", as a Go map read does |
| ResyncScenarios.FixtureServiceRoutes | confd/pkg/backends/calico/routes_test.go:45-120 | each indexed fixture service resolves to its fixture routes under the current ranges |
| ResyncScenarios.NoneResolves | confd/pkg/backends/calico/routes_test.go:45-120 | a route in no fixture service's set is resolved by no indexed service |
| ResyncScenarios.SomeResolves | confd/pkg/backends/calico/routes_test.go:45-120 | an indexed fixture service whose set holds the route resolves to it |
| ResyncScenarios.ResolvedWithin | confd/pkg/backends/calico/routes_test.go:45-120 | only the named services can resolve to a route that is in no other fixture set |
| ResyncScenarios.FixtureIsFixtureLike | confd/pkg/backends/calico/routes_test.go:263-289 | the handler fixture is a resync start state: nothing recorded or advertised, fixture ranges, every route owned |
| ResyncScenarios.UnindexedFixtureLike | confd/pkg/backends/calico/routes_test.go:659-662 | deleting one service and its endpoints from the stores keeps a start state |
| ResyncScenarios.ParseSingle | confd/pkg/backends/calico/routes_test.go:604-605 | a one-range list parses to that range's parse |
| ResyncScenarios.Range1Resolution | confd/pkg/backends/calico/routes_test.go:548-558 | under 45.12.0.0/16 foo/bar resolves to 45.12.70.5/32 and nothing resolves to 172.217.3.5/32 or to the range |
| ResyncScenarios.Range2Resolution | confd/pkg/backends/calico/routes_test.go:560-569 | under 172.217.3.5/32 only 172.217.3.5/32 is resolved |
| ResyncScenarios.Range1Update | confd/pkg/backends/calico/routes_test.go:550-551 | 45.12.0.0/16 replaces the fixture's external ranges and is published under its reject key |
| ResyncScenarios.Range1Settles | confd/pkg/backends/calico/routes_test.go:552-558 | the resync shows 45.12.70.5/32, not 172.217.3.5/32, and keeps the reject entry |
| ResyncScenarios.Range2Update | confd/pkg/backends/calico/routes_test.go:560-561 | 172.217.3.5/32 replaces the range, whose reject entry goes |
| ResyncScenarios.Range2Settles | confd/pkg/backends/calico/routes_test.go:562-569 | the resync shows 172.217.3.5/32 only |
| ResyncScenarios.Range1Observed | confd/pkg/backends/calico/routes_test.go:548-558 | the first half of the scenario from any start state holding foo/bar |
| ResyncScenarios.Range2Observed | confd/pkg/backends/calico/routes_test.go:560-569 | the second half |
| ResyncScenarios.ExternalKeys | confd/pkg/backends/calico/routes_test.go:556-557 | the literal static-route keys of the two external IPs |
| ResyncScenarios.Range1RejectKey | confd/pkg/backends/calico/routes_test.go:558 | the reject key of 45.12.0.0/16 is the prefix plus strings.Replace of '/' by '-' |
| ResyncScenarios.RangeMoveHolds | confd/pkg/backends/calico/routes_test.go:548-570 | both halves hold from any start state holding foo/bar |
| ResyncScenarios.RangeMoveObserved | confd/pkg/backends/calico/routes_test.go:548-570 | the scenario's cache reads, read off the outcome |
| ResyncScenarios.RangeMoveReads | confd/pkg/backends/calico/routes_test.go:556-569 | shown and gone routes and a present or absent reject entry, read under the literal keys |
| ResyncScenarios.ExternalRangesScenario | confd/pkg/backends/calico/routes_test.go:548-570 | under 45.12.0.0/16 the cache holds 45.12.70.5/32 and the range's reject entry and not 172.217.3.5/32; under 172.217.3.5/32 it holds that route only, and the reject entry is gone |
| ResyncScenarios.BarIndexedAtStart | confd/pkg/backends/calico/routes_test.go:572-576 | a start state holding foo/bar is fresh, with foo/bar resolving to its expected routes |
| ResyncScenarios.BarAddedSteady | confd/pkg/backends/calico/routes_test.go:573-576 | adding foo/bar's service and endpoints records exactly foo/bar's routes and keeps the scenario invariants |
| ResyncScenarios.BarAddedIsSvcAdd | confd/pkg/backends/calico/routes_test.go:573-574 | the endpoints event after the service event changes nothing more |
| ResyncScenarios.BarClusterShown | confd/pkg/backends/calico/routes_test.go:577-578 | foo/bar's two cluster routes are shown |
| ResyncScenarios.ClusterUpdate | confd/pkg/backends/calico/routes_test.go:581 | emptying the cluster ranges keeps the generator's bookkeeping and indexes |
| ResyncScenarios.ClusterRangeUnadvertised | confd/pkg/backends/calico/routes_test.go:581 | the dropped cluster range is not an advertised route |
| ResyncScenarios.ClusterSettles | confd/pkg/backends/calico/routes_test.go:582-585 | with no cluster range a resync withdraws both cluster routes |
| ResyncScenarios.ClusterHolds | confd/pkg/backends/calico/routes_test.go:572-586 | the cluster scenario's outcome holds from any start state holding foo/bar |
| ResyncScenarios.ClusterReads | confd/pkg/backends/calico/routes_test.go:577-585 | the outcome read under the literal keys |
| ResyncScenarios.ClusterRangeScenario | confd/pkg/backends/calico/routes_test.go:572-586 | after adding foo/bar the cache holds 127.0.0.1/32 and ::1/128; after emptying the cluster ranges and a resync both read "" |
| ResyncScenarios.FixtureRangesUnclaimed | confd/pkg/backends/calico/routes_test.go:597-601 | under the fixture ranges no fixture service resolves to 45.12.70.5/32 or to either fixture range |
| ResyncScenarios.Single1Claimed | confd/pkg/backends/calico/routes_test.go:604-616 | under the /32 foo/bar resolves to 45.12.70.5/32, and only foo/bar and foo/rem can |
| ResyncScenarios.DupResync1 | confd/pkg/backends/calico/routes_test.go:598-601 | the first resync shows nothing under the key |
| ResyncScenarios.DupSingle | confd/pkg/backends/calico/routes_test.go:604-610 | configuring the /32 equal to a service route adds no reference and publishes nothing |
| ResyncScenarios.DupSettleSingle | confd/pkg/backends/calico/routes_test.go:613-616 | a resync publishes the route with exactly one reference, claimed only by foo/bar and foo/rem |
| ResyncScenarios.DupWiden | confd/pkg/backends/calico/routes_test.go:623-624 | 45.12.0.0/16 replaces the /32, which held no reference |
| ResyncScenarios.DupSettleWide | confd/pkg/backends/calico/routes_test.go:625-629 | a resync under 45.12.0.0/16 keeps the route published with one reference |
| ResyncScenarios.DupNarrow | confd/pkg/backends/calico/routes_test.go:632-633 | the /32 comes back; the dropped /16 was never advertised |
| ResyncScenarios.DupDelete | confd/pkg/backends/calico/routes_test.go:638-641 | deleting foo/bar and foo/rem, the only claimants, withdraws the route |
| ResyncScenarios.DupClear | confd/pkg/backends/calico/routes_test.go:644-649 | clearing the ranges leaves neither cache nor count entry |
| ResyncScenarios.DupOpening | confd/pkg/backends/calico/routes_test.go:597-610 | the first resync and the /32 configured |
| ResyncScenarios.DupFirstStages | confd/pkg/backends/calico/routes_test.go:597-616 | the stages up to the first resync under the /32 |
| ResyncScenarios.DupMiddleStages | confd/pkg/backends/calico/routes_test.go:623-636 | the stages through the /16 and back to the /32, each showing the route once |
| ResyncScenarios.DupLastStages | confd/pkg/backends/calico/routes_test.go:638-649 | the deletes and the clearing, each leaving the route gone |
| ResyncScenarios.DupHolds | confd/pkg/backends/calico/routes_test.go:591-650 | every stage outcome from any start state holding foo/bar |
| ResyncScenarios.DupReads | confd/pkg/backends/calico/routes_test.go:591-650 | the scenario's reads, from the stage outcomes |
| ResyncScenarios.DuplicatePrefixScenario | confd/pkg/backends/calico/routes_test.go:591-650 | the key reads ""/0 after the first resync and after configuring the /32; 45.12.70.5/32 with count 1 after each resync under the /32 or the /16; ""/0 after deleting both services; absent from cache and counts once the ranges are cleared |
| ResyncScenarios.SoloTexts | confd/pkg/backends/calico/routes_test.go:675-676 | the two /32 texts are single hosts and parse to one /32 net each |
| ResyncScenarios.LbOnlyRoute | confd/pkg/backends/calico/routes_test.go:81-102 | only foo/lb can resolve to 172.217.4.10/32: not with an empty load-balancer list, always under its /32 |
| ResyncScenarios.ExtOnlyRoute | confd/pkg/backends/calico/routes_test.go:104-120 | only foo/ext can resolve to 45.12.70.7/32: not with an empty external list, always under its /32 |
| ResyncScenarios.SoloUnclaimed | confd/pkg/backends/calico/routes_test.go:669-672 | a resync while the only possible claimant is out of the stores or does not resolve to the route leaves it gone |
| ResyncScenarios.SoloClaimed | confd/pkg/backends/calico/routes_test.go:692-695 | a resync once that service is back and resolves to the route shows it |
| ResyncScenarios.SoloRanges | confd/pkg/backends/calico/routes_test.go:677-678 | a range update around a single-host route keeps it owned and the scenario invariants |
| ResyncScenarios.LbReindex | confd/pkg/backends/calico/routes_test.go:686-689 | adding ep3 and svc3 back indexes foo/lb and leaves the client alone |
| ResyncScenarios.ExtReindex | confd/pkg/backends/calico/routes_test.go:739-742 | adding ep4 and svc4 back indexes foo/ext and leaves the client alone |
| ResyncScenarios.SteadyReindexed | confd/pkg/backends/calico/routes_test.go:685-688 | adding objects to the informer stores, without touching the client, the recorded routes or the advertisements, keeps the steady-state invariant and the ownership of every route |
| ResyncScenarios.LbResync1 | confd/pkg/backends/calico/routes_test.go:669-672 | the first resync shows nothing under the load-balancer key |
| ResyncScenarios.LbSet | confd/pkg/backends/calico/routes_test.go:677-678 | the /32 replaces the empty load-balancer list |
| ResyncScenarios.LbSettleUnindexed | confd/pkg/backends/calico/routes_test.go:679-683 | a resync under the /32 without foo/lb shows nothing |
| ResyncScenarios.LbSettleIndexed | confd/pkg/backends/calico/routes_test.go:686-695 | with foo/lb back a resync shows the route once |
| ResyncScenarios.LbClear | confd/pkg/backends/calico/routes_test.go:699 | clearing the load-balancer list leaves no net |
| ResyncScenarios.LbSettleCleared | confd/pkg/backends/calico/routes_test.go:700-702 | the resync then withdraws the route |
| ResyncScenarios.LbOpening | confd/pkg/backends/calico/routes_test.go:669-683 | the first two stages |
| ResyncScenarios.LbClosing | confd/pkg/backends/calico/routes_test.go:686-702 | the last two stages |
| ResyncScenarios.LbHolds | confd/pkg/backends/calico/routes_test.go:655-703 | every stage outcome from a start state without foo/lb |
| ResyncScenarios.ExtResync1 | confd/pkg/backends/calico/routes_test.go:722-725 | the first resync shows nothing under the external key and advertises neither fixture range |
| ResyncScenarios.ExtSet | confd/pkg/backends/calico/routes_test.go:730-731 | the /32 replaces the fixture's two external ranges |
| ResyncScenarios.ExtSettleUnindexed | confd/pkg/backends/calico/routes_test.go:732-736 | a resync under the /32 without foo/ext shows nothing |
| ResyncScenarios.ExtSettleIndexed | confd/pkg/backends/calico/routes_test.go:739-748 | with foo/ext back a resync shows the route once |
| ResyncScenarios.ExtClear | confd/pkg/backends/calico/routes_test.go:752 | clearing the external list leaves no net |
| ResyncScenarios.ExtSettleCleared | confd/pkg/backends/calico/routes_test.go:753-755 | the resync then withdraws the route |
| ResyncScenarios.ExtOpening | confd/pkg/backends/calico/routes_test.go:722-736 | the first two stages |
| ResyncScenarios.ExtClosing | confd/pkg/backends/calico/routes_test.go:739-755 | the last two stages |
| ResyncScenarios.ExtHolds | confd/pkg/backends/calico/routes_test.go:708-756 | every stage outcome from a start state without foo/ext |
| ResyncScenarios.SoloKeys | confd/pkg/backends/calico/routes_test.go:665-718 | the static-route keys of the two /32 routes are the literal keys the scenarios build |
| ResyncScenarios.GoneReadAt | confd/pkg/backends/calico/routes_test.go:680-682 | a withdrawn route reads "" with count 0 under its key, which is in neither the cache nor the reference counts |
| ResyncScenarios.ShownReadAt | confd/pkg/backends/calico/routes_test.go:692-693 | an advertised route reads its own text with count 1 under its key |
| ResyncScenarios.SoloReads | confd/pkg/backends/calico/routes_test.go:670-702 | the four reads of a /32 scenario: gone after the first resync, gone with only the range set, shown once the service is back, gone (no cache entry, no count) after the range is cleared |
| ResyncScenarios.WithoutLbFixtureLike | confd/pkg/backends/calico/routes_test.go:659-662 | the fixture with foo/lb deleted from both stores is a start state without foo/lb |
| ResyncScenarios.WithoutExtFixtureLike | confd/pkg/backends/calico/routes_test.go:712-715 | the fixture with foo/ext deleted from both stores is a start state without foo/ext |
| ResyncScenarios.LoadBalancerSingleScenario | confd/pkg/backends/calico/routes_test.go:655-703 | with foo/lb out of the stores the key reads ""/0 after a resync and after configuring its /32; once ep3 and svc3 are back a resync publishes 172.217.4.10/32 with count 1; clearing the list and resyncing leaves the key in neither map |
| ResyncScenarios.ExternalSingleScenario | confd/pkg/backends/calico/routes_test.go:708-756 | the same for foo/ext, its external /32 45.12.70.7/32 and ep4 and svc4 |
| PolicyConversion.ConvertKey | libcalico-go/lib/backend/syncersv1/updateprocessors/globalnetworkpolicyprocessor.go:39-52 | an empty name gives the missing-name error and an empty key; a tier error is passed through with an empty key; otherwise the key keeps the name and takes the derived tier, with no error |
| PolicyConversion.ReplacementShape | libcalico-go/lib/backend/syncersv1/updateprocessors/globalnetworkpolicyprocessor.go:66-72 | the two replacement texts start with 'h', have their only '(' at index 3, and end with ')' |
| PolicyConversion.ReplacementIsSafe | libcalico-go/lib/backend/syncersv1/updateprocessors/globalnetworkpolicyprocessor.go:66-72 | neither replacement text contains "all()" or can complete one with its neighbours |
| PolicyConversion.RewriteStep | libcalico-go/lib/backend/syncersv1/updateprocessors/globalnetworkpolicyprocessor.go:63-73 | an empty sub-selector leaves the selector; a non-empty one leaves no "all()" behind |
| PolicyConversion.ConvertSelector | libcalico-go/lib/backend/syncersv1/updateprocessors/globalnetworkpolicyprocessor.go:60-73 | with both sub-selectors empty the selector is unchanged; with either non-empty no "all()" remains (NamespaceRewriteFirst gives the result exactly) |
| PolicyConversion.NamespaceRewriteFirst | libcalico-go/lib/backend/syncersv1/updateprocessors/globalnetworkpolicyprocessor.go:60-73 | the selector is kept with neither sub-selector; with one, the result is strings.Replace of "all()" by that step's has(...) test over its combined selector; with both, the service-account step combines the namespace step's output, which holds no "all()" |
| PolicyConversion.ConvertValue | libcalico-go/lib/backend/syncersv1/updateprocessors/globalnetworkpolicyprocessor.go:54-89 | a value that is not a policy gives no policy and the not-a-policy error; a policy gives a policy, no error, and an empty namespace |
| PolicyConversion.ConvertValueFields | libcalico-go/lib/backend/syncersv1/updateprocessors/globalnetworkpolicyprocessor.go:75-86 | every field of the converted policy: empty namespace, rules and types through their converters, the rewritten selector, the other fields copied |

## Left out

- The route generator's implementation file (routes.go) is not part of this model. Its behaviour is taken from the state and the expectations in confd/pkg/backends/calico/routes_test.go. Where a rule is not visible there, the model makes the choice noted below.
- Go map iteration order: the generator withdraws and advertises the routes of a diff, and resyncs the indexed services, in lexicographic key order (`Strings.SortedSeq`). Go's order is random; no proved property depends on it.
- Reject keys are written for every range category, cluster and load-balancer included. This follows the test at routes_test.go:191-213, which reads the reject key after onClusterIPsUpdate.
- Which endpoint addresses make a service local: beyond "hosted on this node" the rule is not visible, so it is a parameter (`Resolver.AddressRule`). The scenarios assume only what the tests show: an address with no IP counts, fd5f:1234::3 does not count for foo/bar, and 10.96.0.45 does. `Resolver.SameFamilyRule` is one rule that fits.
- Engine.OnRangesUpdatePreservesGInv: requires that no dropped multi-host range claims the static-route key of an advertised route. Every advertised route is a /32 or /128 host route (`Resolver.AdvertisedRoutesAreHostRoutes`), and distinct dash-free texts have distinct keys. So a dropped range can claim such a key only if the parser reads a "/32" or "/128" text as a multi-host range. No step of the tests does this; every range step of the resync scenarios meets the requires (`ResyncScenarios.RangeStep`).
- Ledger.UnsetKey: a key with no reference is left alone, with no error. The test at routes_test.go:197 reaches this case: onClusterIPsUpdate drops the fixture range 10.0.0.0/16, which was configured but never published. The generator's own withdrawals never reach it (`Engine.WithdrawRouteHoldsReference`).
- Ledger.PutKey: the revision moves only when the stored value changes. The revision deltas the tests read (routes_test.go:295-419) fit this; the rule itself is inferred.
- Ledger.DeleteKey: the revision moves only when the key was present; inferred like PutKey's rule.
- Ledger.SetIgnoredInterfaces: an empty list deletes the key. Only a two-name list is exercised (routes_test.go:761-777), so the empty case is a choice.
- Engine.GetServiceForEndpoints: a miss gives no service and the key "". routes_test.go:168-178 exercises only a hit.
- Engine.GetEndpointsForService: a miss gives no endpoints and the key "". routes_test.go:179-189 exercises only a hit.
- Kube.MetaKey: always "namespace/name". client-go's MetaNamespaceKeyFunc gives the bare name for an object without a namespace. Every fixture has the namespace foo, and client-go is not part of this model.
- The previous object passed to onSvcUpdate and onEPUpdate plays no part; the new object is resolved afresh.
- The client-go indexers are maps keyed by namespace/name. Mutating a test object that the indexer also holds is modelled by indexing the new object.
- Concurrency (the cache lock and its condition variable) is not modelled: one sequential caller is assumed.
- Go's `net` package (ParseIP, ParseCIDR and IP formatting) is foreign: parsing is the parameter `Net.NetLib`, and addresses are (family, value) pairs with prefix containment.
- The syncedOnce flag and the watcher notification are not modelled.
- Ledger.KeyText: written as a per-character map of '/' to '-'. `Ledger.KeyTextIsReplaceAll` proves it equal to strings.Replace.
- In the policy conversion, prefixAndAppendSelector, RulesAPIV3ToBackend, policyTypesAPIV3ToBackend, names.TierFromPolicyName and the two label-prefix constants are parameters. Their code is not part of this model.
- NewGlobalNetworkPolicyUpdateProcessor and NewSimpleUpdateProcessor (globalnetworkpolicyprocessor.go:31-37) only wire the two converters into the syncer framework, which is not part of this model.
- A typed nil *GlobalNetworkPolicy (which would panic in Go) is not modelled: a policy value always carries a policy.
