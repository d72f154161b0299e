/**
 * The publishing client's ledger: the key/value cache that BIRD's templates
 * read, its revision counter, and the reference count of every programmed
 * static-route key. A static-route key can be claimed by the route generator
 * and by a configured range at once; it is written when its count leaves zero
 * and deleted, together with its count entry, when the count returns to zero.
 * Every write or delete that changes the cache moves the revision by one.
 */
module Ledger {
  import opened Wrappers
  import opened Net
  import opened Strings
  import opened RangeIndex

  // ---------------------------------------------------------------------
  // Store keys
  // ---------------------------------------------------------------------

  /** The common stem of the IPv4 and IPv6 static-route keys. */
  const StaticRoutesStem: string := "/calico/staticroutes"
  const StaticRoutesPrefix: string := "/calico/staticroutes/"
  const StaticRoutesV6Prefix: string := "/calico/staticroutesv6/"
  const RejectCIDRsPrefix: string := "/calico/rejectcidrs/"
  const IgnoredInterfacesKey: string := "/calico/bgp/v1/global/ignored_interfaces"

  /** A CIDR as it appears inside a store key: every '/' replaced by '-'. */
  function KeyText(cidr: string): (r: string)
    ensures |r| == |cidr|
  {
    seq(|cidr|, i requires 0 <= i < |cidr| => if cidr[i] == '/' then '-' else cidr[i])
  }

  /** The static-route key of a CIDR; the IPv6 key space is chosen by a ':' in the text. */
  function StaticRouteKey(cidr: string): string {
    (if ':' in cidr then StaticRoutesV6Prefix else StaticRoutesPrefix) + KeyText(cidr)
  }

  /** The key under which a configured range is rejected in the data plane. */
  function RejectKey(cidr: string): string {
    RejectCIDRsPrefix + KeyText(cidr)
  }

  predicate IsStaticKey(k: string) {
    StartsWith(k, StaticRoutesStem)
  }

  /** The key text is Go's strings.Replace(cidr, "/", "-", -1). */
  lemma KeyTextIsReplaceAll(cidr: string)
    ensures KeyText(cidr) == ReplaceAll(cidr, "/", "-")
  {
    var r := ReplaceAll(cidr, "/", "-");
    if |cidr| > 0 {
      ReplaceCharAt(cidr, '/', '-', 0);
    }
    forall i | 0 <= i < |cidr| ensures r[i] == KeyText(cidr)[i] {
      ReplaceCharAt(cidr, '/', '-', i);
    }
  }

  /** Texts without '-' (every CIDR text) keep distinct key texts. */
  lemma KeyTextInjective(a: string, b: string)
    requires '-' !in a && '-' !in b
    requires KeyText(a) == KeyText(b)
    ensures a == b
  {
    forall i | 0 <= i < |a| ensures a[i] == b[i] {
      assert a[i] in a && b[i] in b;
      assert KeyText(a)[i] == KeyText(b)[i];
    }
  }

  /** The key text of any "<address>/<length>" text: "<address>-<length>". */
  lemma CIDRKeyText(ip: string, len: string)
    requires '/' !in ip && '/' !in len
    ensures KeyText(ip + "/" + len) == ip + "-" + len
  {
    var s := ip + "/" + len;
    forall i | 0 <= i < |s| ensures KeyText(s)[i] == (ip + "-" + len)[i] {
      if i < |ip| {
        assert s[i] == ip[i] && ip[i] in ip;
      } else if i > |ip| {
        assert s[i] == len[i - |ip| - 1] && len[i - |ip| - 1] in len;
      }
    }
  }

  /** The key text of a host route: "<ip>-32" or "<ip>-128". */
  lemma HostRouteKeyText(ip: string)
    requires '/' !in ip
    ensures KeyText(ip + "/32") == ip + "-32"
    ensures KeyText(ip + "/128") == ip + "-128"
  {
    CIDRKeyText(ip, "32");
    CIDRKeyText(ip, "128");
    assert ip + "/" + "32" == ip + "/32" && ip + "-" + "32" == ip + "-32";
    assert ip + "/" + "128" == ip + "/128" && ip + "-" + "128" == ip + "-128";
  }

  lemma StaticRouteKeyIsStatic(cidr: string)
    ensures IsStaticKey(StaticRouteKey(cidr))
  {
    var k := StaticRouteKey(cidr);
    var p := if ':' in cidr then StaticRoutesV6Prefix else StaticRoutesPrefix;
    assert k[..|StaticRoutesStem|] == p[..|StaticRoutesStem|];
  }

  /** Reject keys and the ignored-interfaces key live outside the static-route key space. */
  lemma OtherKeysAreNotStatic(cidr: string)
    ensures !IsStaticKey(RejectKey(cidr))
    ensures !IsStaticKey(IgnoredInterfacesKey)
  {
    assert RejectKey(cidr)[8] == 'r' && StaticRoutesStem[8] == 's';
    assert IgnoredInterfacesKey[8] == 'b';
  }

  lemma StaticRouteKeyInjective(a: string, b: string)
    requires '-' !in a && '-' !in b
    requires StaticRouteKey(a) == StaticRouteKey(b)
    ensures a == b
  {
    var ka, kb := StaticRouteKey(a), StaticRouteKey(b);
    // the two key spaces differ right after the stem: '/' against 'v'
    assert ka[20] == (if ':' in a then 'v' else '/');
    assert kb[20] == (if ':' in b then 'v' else '/');
    if (':' in a) == (':' in b) {
      var p := if ':' in a then StaticRoutesV6Prefix else StaticRoutesPrefix;
      assert KeyText(a) == ka[|p|..] == kb[|p|..] == KeyText(b);
      KeyTextInjective(a, b);
    }
  }

  lemma StaticRouteKeysDistinct(a: string, b: string)
    requires '-' !in a && '-' !in b && a != b
    ensures StaticRouteKey(a) != StaticRouteKey(b)
  {
    if StaticRouteKey(a) == StaticRouteKey(b) {
      StaticRouteKeyInjective(a, b);
    }
  }

  lemma RejectKeysDistinct(a: string, b: string)
    requires '-' !in a && '-' !in b && a != b
    ensures RejectKey(a) != RejectKey(b)
  {
    if RejectKey(a) == RejectKey(b) {
      RejectKeyInjective(a, b);
    }
  }

  lemma RejectKeyInjective(a: string, b: string)
    requires '-' !in a && '-' !in b
    requires RejectKey(a) == RejectKey(b)
    ensures a == b
  {
    assert KeyText(a) == RejectKey(a)[|RejectCIDRsPrefix|..] == RejectKey(b)[|RejectCIDRsPrefix|..] == KeyText(b);
    KeyTextInjective(a, b);
  }

  // ---------------------------------------------------------------------
  // Client state and its primitive writes
  // ---------------------------------------------------------------------

  datatype ClientState = ClientState(
    cache: map<string, string>,
    revision: nat,
    programmed: map<string, nat>,
    ranges: RangeConfig)

  /** The programmed reference count of a key; an absent entry counts as zero. */
  function Count(c: ClientState, k: string): nat {
    if k in c.programmed then c.programmed[k] else 0
  }

  /** An unreferenced cache write; the revision moves only if the value changes. */
  function PutKey(c: ClientState, k: string, v: string): (r: ClientState)
    ensures k in r.cache && r.cache[k] == v
    ensures forall k' :: k' != k ==> (k' in r.cache <==> k' in c.cache) && (k' in c.cache ==> r.cache[k'] == c.cache[k'])
    ensures r.revision == c.revision + (if k in c.cache && c.cache[k] == v then 0 else 1)
    ensures r.programmed == c.programmed && r.ranges == c.ranges
  {
    if k in c.cache && c.cache[k] == v then c
    else c.(cache := c.cache[k := v], revision := c.revision + 1)
  }

  /** An unreferenced cache delete; the revision moves only if the key was present. */
  function DeleteKey(c: ClientState, k: string): (r: ClientState)
    ensures k !in r.cache
    ensures forall k' :: k' != k ==> (k' in r.cache <==> k' in c.cache) && (k' in c.cache ==> r.cache[k'] == c.cache[k'])
    ensures r.revision == c.revision + (if k in c.cache then 1 else 0)
    ensures r.programmed == c.programmed && r.ranges == c.ranges
  {
    if k in c.cache then c.(cache := c.cache - {k}, revision := c.revision + 1) else c
  }

  /** Take one more reference on a static-route key; the first reference writes it. */
  function SetKey(c: ClientState, k: string, v: string): (r: ClientState)
    ensures Count(r, k) == Count(c, k) + 1
    ensures forall k' :: k' != k ==> Count(r, k') == Count(c, k')
    ensures Count(c, k) == 0 ==> r.cache == c.cache[k := v]
    ensures Count(c, k) > 0 ==> r.cache == c.cache && r.revision == c.revision
    ensures r.ranges == c.ranges
  {
    if Count(c, k) == 0 then PutKey(c.(programmed := c.programmed[k := 1]), k, v)
    else c.(programmed := c.programmed[k := c.programmed[k] + 1])
  }

  /** Drop one reference on a static-route key; the last reference deletes the
      cache entry and the count entry. A key with no reference is left alone. */
  function UnsetKey(c: ClientState, k: string): (r: ClientState)
    ensures Count(r, k) == if Count(c, k) > 0 then Count(c, k) - 1 else 0
    ensures forall k' :: k' != k ==> Count(r, k') == Count(c, k')
    ensures Count(c, k) == 1 ==> k !in r.programmed && r.cache == c.cache - {k}
    ensures Count(c, k) != 1 ==> r.cache == c.cache && r.revision == c.revision
    ensures Count(c, k) > 1 ==> k in r.programmed
    ensures r.ranges == c.ranges
  {
    if Count(c, k) == 0 then c
    else if Count(c, k) == 1 then DeleteKey(c.(programmed := c.programmed - {k}), k)
    else c.(programmed := c.programmed[k := c.programmed[k] - 1])
  }

  /**
   * The ledger invariant: every count entry is positive, names a static-route
   * key and has a cache entry; every static-route key in the cache is counted.
   */
  predicate CInv(c: ClientState) {
    (forall k :: k in c.programmed ==> c.programmed[k] >= 1 && k in c.cache && IsStaticKey(k))
    && (forall k :: k in c.cache && IsStaticKey(k) ==> k in c.programmed)
  }

  /** With the invariant, a first reference writes a new entry and moves the
      revision by exactly one; a further reference changes nothing in the cache. */
  lemma SetKeyPreservesInv(c: ClientState, k: string, v: string)
    requires CInv(c) && IsStaticKey(k)
    ensures CInv(SetKey(c, k, v))
    ensures SetKey(c, k, v).revision == c.revision + (if Count(c, k) == 0 then 1 else 0)
    ensures k in SetKey(c, k, v).cache
  {
  }

  /** With the invariant, dropping the last reference deletes an existing entry
      and moves the revision by exactly one. */
  lemma UnsetKeyPreservesInv(c: ClientState, k: string)
    requires CInv(c) && IsStaticKey(k)
    ensures CInv(UnsetKey(c, k))
    ensures UnsetKey(c, k).revision == c.revision + (if Count(c, k) == 1 then 1 else 0)
    ensures Count(UnsetKey(c, k), k) == 0 ==> k !in UnsetKey(c, k).cache && k !in UnsetKey(c, k).programmed
  {
  }

  lemma PutKeyPreservesInv(c: ClientState, k: string, v: string)
    requires CInv(c) && !IsStaticKey(k)
    ensures CInv(PutKey(c, k, v))
  {
  }

  lemma DeleteKeyPreservesInv(c: ClientState, k: string)
    requires CInv(c) && !IsStaticKey(k)
    ensures CInv(DeleteKey(c, k))
  {
  }

  // ---------------------------------------------------------------------
  // Range-list updates (onClusterIPsUpdate, onExternalIPsUpdate,
  // onLoadBalancerIPsUpdate)
  // ---------------------------------------------------------------------

  /** Withdraw one configured range: its reject entry, and its static route
      unless the range is a single address. */
  function UnpublishRange(c: ClientState, lib: NetLib, cidr: string): ClientState {
    var c1 := DeleteKey(c, RejectKey(cidr));
    if IsSingleHostText(lib, cidr) then c1 else UnsetKey(c1, StaticRouteKey(cidr))
  }

  /** Publish one configured range: its static route unless it is a single
      address (a single address is advertised by the route generator alone),
      and its reject entry. */
  function PublishRange(c: ClientState, lib: NetLib, cidr: string): ClientState {
    var c1 := if IsSingleHostText(lib, cidr) then c else SetKey(c, StaticRouteKey(cidr), cidr);
    PutKey(c1, RejectKey(cidr), cidr)
  }

  function UnpublishAll(c: ClientState, lib: NetLib, xs: seq<string>): (r: ClientState)
    ensures r.ranges == c.ranges
    decreases |xs|
  {
    if xs == [] then c else UnpublishRange(UnpublishAll(c, lib, xs[..|xs| - 1]), lib, xs[|xs| - 1])
  }

  function PublishAll(c: ClientState, lib: NetLib, xs: seq<string>): (r: ClientState)
    ensures r.ranges == c.ranges
    decreases |xs|
  {
    if xs == [] then c else PublishRange(PublishAll(c, lib, xs[..|xs| - 1]), lib, xs[|xs| - 1])
  }

  /** The entries of the current list that the new list drops, in key order. */
  function Dropped(cur: seq<string>, next: seq<string>): seq<string> {
    SortedSeq((set x | x in cur) - (set x | x in next))
  }

  /** The entries of the new list that the current list lacks, in key order. */
  function Added(cur: seq<string>, next: seq<string>): seq<string> {
    SortedSeq((set x | x in next) - (set x | x in cur))
  }

  /**
   * Replace one category's range list. If any entry of `next` does not parse
   * the update is refused and nothing changes; otherwise dropped ranges are
   * withdrawn, added ranges published, and the list (with its parsed form)
   * replaced.
   */
  function UpdateRanges(c: ClientState, lib: NetLib, cat: Category, next: seq<string>): (r: ClientState)
    ensures ParseAll(lib, next).None? ==> r == c
    ensures ParseAll(lib, next).Some? ==>
      r.ranges == WithEntries(c.ranges, cat, next, ParseAll(lib, next).value)
  {
    match ParseAll(lib, next)
    case None => c
    case Some(nets) =>
      ApplyDiff(c, lib, Entries(c.ranges, cat), next).(ranges := WithEntries(c.ranges, cat, next, nets))
  }

  /** Withdraw the dropped ranges, then publish the added ones. */
  function ApplyDiff(c: ClientState, lib: NetLib, cur: seq<string>, next: seq<string>): ClientState {
    PublishAll(UnpublishAll(c, lib, Dropped(cur, next)), lib, Added(cur, next))
  }

  /** How many of `xs` claim the static-route key `k` (ranges that are not single addresses). */
  function StaticHits(lib: NetLib, xs: seq<string>, k: string): nat
    decreases |xs|
  {
    if xs == [] then 0
    else StaticHits(lib, xs[..|xs| - 1], k)
         + (if !IsSingleHostText(lib, xs[|xs| - 1]) && StaticRouteKey(xs[|xs| - 1]) == k then 1 else 0)
  }

  /** Publishing adds one reference per claiming range; unpublishing removes
      one per claiming range, stopping at zero. */
  lemma {:induction false} PublishAllCount(c: ClientState, lib: NetLib, xs: seq<string>, k: string)
    ensures Count(PublishAll(c, lib, xs), k) == Count(c, k) + StaticHits(lib, xs, k)
    decreases |xs|
  {
    if xs != [] {
      PublishAllCount(c, lib, xs[..|xs| - 1], k);
    }
  }

  lemma {:induction false} UnpublishAllCount(c: ClientState, lib: NetLib, xs: seq<string>, k: string)
    ensures Count(UnpublishAll(c, lib, xs), k) ==
            if Count(c, k) >= StaticHits(lib, xs, k) then Count(c, k) - StaticHits(lib, xs, k) else 0
    decreases |xs|
  {
    if xs != [] {
      UnpublishAllCount(c, lib, xs[..|xs| - 1], k);
    }
  }

  /** The reference count of any key after a range update: the dropped ranges'
      claims come off (stopping at zero), then the added ranges' claims go on. */
  lemma UpdateRangesCount(c: ClientState, lib: NetLib, cat: Category, next: seq<string>, k: string)
    requires ParseAll(lib, next).Some?
    ensures Count(UpdateRanges(c, lib, cat, next), k) ==
      (if Count(c, k) >= StaticHits(lib, Dropped(Entries(c.ranges, cat), next), k)
       then Count(c, k) - StaticHits(lib, Dropped(Entries(c.ranges, cat), next), k) else 0)
      + StaticHits(lib, Added(Entries(c.ranges, cat), next), k)
  {
    var cur := Entries(c.ranges, cat);
    var r := UpdateRanges(c, lib, cat, next);
    assert r.programmed == ApplyDiff(c, lib, cur, next).programmed;
    UnpublishAllCount(c, lib, Dropped(cur, next), k);
    PublishAllCount(UnpublishAll(c, lib, Dropped(cur, next)), lib, Added(cur, next), k);
  }

  lemma {:induction false} PublishAllPreservesInv(c: ClientState, lib: NetLib, xs: seq<string>)
    requires CInv(c)
    ensures CInv(PublishAll(c, lib, xs))
    decreases |xs|
  {
    if xs != [] {
      var x := xs[|xs| - 1];
      var c0 := PublishAll(c, lib, xs[..|xs| - 1]);
      PublishAllPreservesInv(c, lib, xs[..|xs| - 1]);
      StaticRouteKeyIsStatic(x);
      OtherKeysAreNotStatic(x);
      var c1 := if IsSingleHostText(lib, x) then c0 else SetKey(c0, StaticRouteKey(x), x);
      if !IsSingleHostText(lib, x) {
        SetKeyPreservesInv(c0, StaticRouteKey(x), x);
      }
      PutKeyPreservesInv(c1, RejectKey(x), x);
    }
  }

  lemma {:induction false} UnpublishAllPreservesInv(c: ClientState, lib: NetLib, xs: seq<string>)
    requires CInv(c)
    ensures CInv(UnpublishAll(c, lib, xs))
    decreases |xs|
  {
    if xs != [] {
      var x := xs[|xs| - 1];
      var c0 := UnpublishAll(c, lib, xs[..|xs| - 1]);
      UnpublishAllPreservesInv(c, lib, xs[..|xs| - 1]);
      StaticRouteKeyIsStatic(x);
      OtherKeysAreNotStatic(x);
      DeleteKeyPreservesInv(c0, RejectKey(x));
      if !IsSingleHostText(lib, x) {
        UnsetKeyPreservesInv(DeleteKey(c0, RejectKey(x)), StaticRouteKey(x));
      }
    }
  }

  lemma UpdateRangesPreservesInv(c: ClientState, lib: NetLib, cat: Category, next: seq<string>)
    requires CInv(c)
    ensures CInv(UpdateRanges(c, lib, cat, next))
  {
    if ParseAll(lib, next).Some? {
      var cur := Entries(c.ranges, cat);
      UnpublishAllPreservesInv(c, lib, Dropped(cur, next));
      PublishAllPreservesInv(UnpublishAll(c, lib, Dropped(cur, next)), lib, Added(cur, next));
    }
  }

  // ---------------------------------------------------------------------
  // What a range-list update does to each entry
  // ---------------------------------------------------------------------

  /** No entry contains '-', as no CIDR text does; then store keys do not collide. */
  predicate DashFree(xs: seq<string>) {
    forall i :: 0 <= i < |xs| ==> '-' !in xs[i]
  }

  predicate Distinct(xs: seq<string>) {
    forall i, j :: 0 <= i < j < |xs| ==> xs[i] != xs[j]
  }

  lemma {:induction false} StaticHitsOfDistinct(lib: NetLib, xs: seq<string>, x: string)
    requires DashFree(xs) && Distinct(xs) && '-' !in x
    ensures StaticHits(lib, xs, StaticRouteKey(x)) == if x in xs && !IsSingleHostText(lib, x) then 1 else 0
    decreases |xs|
  {
    if xs != [] {
      var init, last := xs[..|xs| - 1], xs[|xs| - 1];
      StaticHitsOfDistinct(lib, init, x);
      assert xs == init + [last];
      if last != x {
        StaticRouteKeysDistinct(last, x);
      } else {
        assert x !in init by {
          forall j | 0 <= j < |init| ensures init[j] != x {
            assert xs[j] != xs[|xs| - 1];
          }
        }
      }
    }
  }

  /** Publishing leaves a non-static key alone unless it is the reject key of a published range. */
  lemma {:induction false} PublishAllFrame(c: ClientState, lib: NetLib, xs: seq<string>, k: string)
    requires !IsStaticKey(k)
    requires forall j :: 0 <= j < |xs| ==> RejectKey(xs[j]) != k
    ensures (k in PublishAll(c, lib, xs).cache <==> k in c.cache)
    ensures k in c.cache ==> PublishAll(c, lib, xs).cache[k] == c.cache[k]
    decreases |xs|
  {
    if xs != [] {
      PublishAllFrame(c, lib, xs[..|xs| - 1], k);
      StaticRouteKeyIsStatic(xs[|xs| - 1]);
    }
  }

  lemma {:induction false} UnpublishAllFrame(c: ClientState, lib: NetLib, xs: seq<string>, k: string)
    requires !IsStaticKey(k)
    requires forall j :: 0 <= j < |xs| ==> RejectKey(xs[j]) != k
    ensures (k in UnpublishAll(c, lib, xs).cache <==> k in c.cache)
    ensures k in c.cache ==> UnpublishAll(c, lib, xs).cache[k] == c.cache[k]
    decreases |xs|
  {
    if xs != [] {
      UnpublishAllFrame(c, lib, xs[..|xs| - 1], k);
      StaticRouteKeyIsStatic(xs[|xs| - 1]);
    }
  }

  /** Publishing leaves a static-route key alone when no published range claims it. */
  lemma {:induction false} PublishAllKeyFrame(c: ClientState, lib: NetLib, xs: seq<string>, k: string)
    requires IsStaticKey(k) && StaticHits(lib, xs, k) == 0
    ensures (k in PublishAll(c, lib, xs).cache <==> k in c.cache)
    ensures k in c.cache ==> PublishAll(c, lib, xs).cache[k] == c.cache[k]
    decreases |xs|
  {
    if xs != [] {
      PublishAllKeyFrame(c, lib, xs[..|xs| - 1], k);
      OtherKeysAreNotStatic(xs[|xs| - 1]);
    }
  }

  /** Withdrawing leaves a static-route key alone when no withdrawn range claims it. */
  lemma {:induction false} UnpublishAllKeyFrame(c: ClientState, lib: NetLib, xs: seq<string>, k: string)
    requires IsStaticKey(k) && StaticHits(lib, xs, k) == 0
    ensures (k in UnpublishAll(c, lib, xs).cache <==> k in c.cache)
    ensures k in c.cache ==> UnpublishAll(c, lib, xs).cache[k] == c.cache[k]
    decreases |xs|
  {
    if xs != [] {
      UnpublishAllKeyFrame(c, lib, xs[..|xs| - 1], k);
      OtherKeysAreNotStatic(xs[|xs| - 1]);
    }
  }

  /** A range update leaves a static-route key, its entry and its count, alone
      when neither a dropped nor an added range claims it. */
  lemma UpdateRangesKeyFrame(c: ClientState, lib: NetLib, cat: Category, next: seq<string>, k: string)
    requires IsStaticKey(k)
    requires StaticHits(lib, Dropped(Entries(c.ranges, cat), next), k) == 0
    requires StaticHits(lib, Added(Entries(c.ranges, cat), next), k) == 0
    ensures (k in UpdateRanges(c, lib, cat, next).cache <==> k in c.cache)
    ensures k in c.cache ==> UpdateRanges(c, lib, cat, next).cache[k] == c.cache[k]
    ensures Count(UpdateRanges(c, lib, cat, next), k) == Count(c, k)
  {
    if ParseAll(lib, next).Some? {
      var cur := Entries(c.ranges, cat);
      var r := UpdateRanges(c, lib, cat, next);
      assert r.cache == ApplyDiff(c, lib, cur, next).cache;
      UnpublishAllKeyFrame(c, lib, Dropped(cur, next), k);
      PublishAllKeyFrame(UnpublishAll(c, lib, Dropped(cur, next)), lib, Added(cur, next), k);
      UpdateRangesCount(c, lib, cat, next, k);
    }
  }

  /** Every published range has its reject entry, holding the range itself. */
  lemma {:induction false} PublishAllRejectPresent(c: ClientState, lib: NetLib, xs: seq<string>, i: nat)
    requires DashFree(xs) && Distinct(xs) && i < |xs|
    ensures RejectKey(xs[i]) in PublishAll(c, lib, xs).cache
    ensures PublishAll(c, lib, xs).cache[RejectKey(xs[i])] == xs[i]
    decreases |xs|
  {
    var init, last := xs[..|xs| - 1], xs[|xs| - 1];
    if i < |xs| - 1 {
      PublishAllRejectPresent(c, lib, init, i);
      RejectKeysDistinct(last, xs[i]);
      StaticRouteKeyIsStatic(last);
      OtherKeysAreNotStatic(xs[i]);
    }
  }

  /** A published range that is not a single address, and whose static route
      nobody held, has its static route written with the range itself. */
  lemma {:induction false} PublishAllStaticPresent(c: ClientState, lib: NetLib, xs: seq<string>, i: nat)
    requires DashFree(xs) && Distinct(xs) && i < |xs|
    requires !IsSingleHostText(lib, xs[i]) && Count(c, StaticRouteKey(xs[i])) == 0
    ensures StaticRouteKey(xs[i]) in PublishAll(c, lib, xs).cache
    ensures PublishAll(c, lib, xs).cache[StaticRouteKey(xs[i])] == xs[i]
    decreases |xs|
  {
    var init, last := xs[..|xs| - 1], xs[|xs| - 1];
    var k := StaticRouteKey(xs[i]);
    StaticRouteKeyIsStatic(xs[i]);
    OtherKeysAreNotStatic(last);
    if i < |xs| - 1 {
      PublishAllStaticPresent(c, lib, init, i);
      StaticRouteKeysDistinct(last, xs[i]);
    } else {
      forall j | 0 <= j < |init| ensures init[j] != last {
        assert xs[j] != xs[|xs| - 1];
      }
      StaticHitsOfDistinct(lib, init, last);
      PublishAllCount(c, lib, init, k);
    }
  }

  /** Every withdrawn range has lost its reject entry. */
  lemma {:induction false} UnpublishAllRejectAbsent(c: ClientState, lib: NetLib, xs: seq<string>, i: nat)
    requires i < |xs|
    ensures RejectKey(xs[i]) !in UnpublishAll(c, lib, xs).cache
    decreases |xs|
  {
    if i < |xs| - 1 {
      UnpublishAllRejectAbsent(c, lib, xs[..|xs| - 1], i);
    }
  }

  /** Both key-ordered difference lists are duplicate-free. */
  lemma DifferencesDistinct(cur: seq<string>, next: seq<string>)
    ensures Distinct(Dropped(cur, next)) && Distinct(Added(cur, next))
  {
    SortedSeqDistinct((set x | x in cur) - (set x | x in next));
    SortedSeqDistinct((set x | x in next) - (set x | x in cur));
  }

  lemma DifferencesDashFree(cur: seq<string>, next: seq<string>)
    requires DashFree(cur) && DashFree(next)
    ensures DashFree(Dropped(cur, next)) && DashFree(Added(cur, next))
  {
    var d, a := Dropped(cur, next), Added(cur, next);
    forall i | 0 <= i < |d| ensures '-' !in d[i] {
      assert d[i] in d;
      var j :| 0 <= j < |cur| && cur[j] == d[i];
    }
    forall i | 0 <= i < |a| ensures '-' !in a[i] {
      assert a[i] in a;
      var j :| 0 <= j < |next| && next[j] == a[i];
    }
  }

  /**
   * A range the new list adds gets its reject entry and, unless it is a single
   * address, one more reference on its static route.
   */
  lemma UpdateRangesAdded(c: ClientState, lib: NetLib, cat: Category, next: seq<string>, x: string)
    requires ParseAll(lib, next).Some?
    requires DashFree(Entries(c.ranges, cat)) && DashFree(next)
    requires x in next && x !in Entries(c.ranges, cat)
    ensures RejectKey(x) in UpdateRanges(c, lib, cat, next).cache
    ensures UpdateRanges(c, lib, cat, next).cache[RejectKey(x)] == x
    ensures Count(UpdateRanges(c, lib, cat, next), StaticRouteKey(x)) ==
            Count(c, StaticRouteKey(x)) + (if IsSingleHostText(lib, x) then 0 else 1)
    ensures !IsSingleHostText(lib, x) && Count(c, StaticRouteKey(x)) == 0 ==>
            StaticRouteKey(x) in UpdateRanges(c, lib, cat, next).cache
            && UpdateRanges(c, lib, cat, next).cache[StaticRouteKey(x)] == x
  {
    var cur := Entries(c.ranges, cat);
    var r := UpdateRanges(c, lib, cat, next);
    assert r.cache == ApplyDiff(c, lib, cur, next).cache && r.programmed == ApplyDiff(c, lib, cur, next).programmed;
    var d, a := Dropped(cur, next), Added(cur, next);
    var c1 := UnpublishAll(c, lib, d);
    DifferencesDistinct(cur, next);
    DifferencesDashFree(cur, next);
    assert x in a;
    var i :| 0 <= i < |a| && a[i] == x;
    PublishAllRejectPresent(c1, lib, a, i);
    var j :| 0 <= j < |next| && next[j] == x;
    StaticHitsOfDistinct(lib, d, x);
    StaticHitsOfDistinct(lib, a, x);
    UnpublishAllCount(c, lib, d, StaticRouteKey(x));
    PublishAllCount(c1, lib, a, StaticRouteKey(x));
    if !IsSingleHostText(lib, x) && Count(c, StaticRouteKey(x)) == 0 {
      PublishAllStaticPresent(c1, lib, a, i);
    }
  }

  /**
   * A range the new list drops loses its reject entry and, unless it is a
   * single address, one reference on its static route.
   */
  lemma UpdateRangesDropped(c: ClientState, lib: NetLib, cat: Category, next: seq<string>, x: string)
    requires ParseAll(lib, next).Some?
    requires DashFree(Entries(c.ranges, cat)) && DashFree(next)
    requires x in Entries(c.ranges, cat) && x !in next
    ensures RejectKey(x) !in UpdateRanges(c, lib, cat, next).cache
    ensures Count(UpdateRanges(c, lib, cat, next), StaticRouteKey(x)) ==
            if IsSingleHostText(lib, x) then Count(c, StaticRouteKey(x))
            else if Count(c, StaticRouteKey(x)) > 0 then Count(c, StaticRouteKey(x)) - 1 else 0
  {
    var cur := Entries(c.ranges, cat);
    var r := UpdateRanges(c, lib, cat, next);
    assert r.cache == ApplyDiff(c, lib, cur, next).cache && r.programmed == ApplyDiff(c, lib, cur, next).programmed;
    var d, a := Dropped(cur, next), Added(cur, next);
    var c1 := UnpublishAll(c, lib, d);
    DifferencesDistinct(cur, next);
    DifferencesDashFree(cur, next);
    assert x in d;
    var i :| 0 <= i < |d| && d[i] == x;
    UnpublishAllRejectAbsent(c, lib, d, i);
    var j :| 0 <= j < |cur| && cur[j] == x;
    forall n | 0 <= n < |a| ensures RejectKey(a[n]) != RejectKey(x) {
      RejectKeysDistinct(a[n], x);
    }
    OtherKeysAreNotStatic(x);
    PublishAllFrame(c1, lib, a, RejectKey(x));
    StaticHitsOfDistinct(lib, d, x);
    StaticHitsOfDistinct(lib, a, x);
    UnpublishAllCount(c, lib, d, StaticRouteKey(x));
    PublishAllCount(c1, lib, a, StaticRouteKey(x));
  }

  /** A range both lists hold keeps its reject entry and its reference count. */
  lemma UpdateRangesKept(c: ClientState, lib: NetLib, cat: Category, next: seq<string>, x: string)
    requires ParseAll(lib, next).Some?
    requires DashFree(Entries(c.ranges, cat)) && DashFree(next)
    requires x in Entries(c.ranges, cat) && x in next
    ensures (RejectKey(x) in UpdateRanges(c, lib, cat, next).cache <==> RejectKey(x) in c.cache)
    ensures RejectKey(x) in c.cache ==> UpdateRanges(c, lib, cat, next).cache[RejectKey(x)] == c.cache[RejectKey(x)]
    ensures Count(UpdateRanges(c, lib, cat, next), StaticRouteKey(x)) == Count(c, StaticRouteKey(x))
  {
    var cur := Entries(c.ranges, cat);
    var r := UpdateRanges(c, lib, cat, next);
    assert r.cache == ApplyDiff(c, lib, cur, next).cache && r.programmed == ApplyDiff(c, lib, cur, next).programmed;
    var d, a := Dropped(cur, next), Added(cur, next);
    var c1 := UnpublishAll(c, lib, d);
    DifferencesDistinct(cur, next);
    DifferencesDashFree(cur, next);
    assert x !in d && x !in a;
    var j :| 0 <= j < |cur| && cur[j] == x;
    forall n | 0 <= n < |a| ensures RejectKey(a[n]) != RejectKey(x) {
      RejectKeysDistinct(a[n], x);
    }
    forall n | 0 <= n < |d| ensures RejectKey(d[n]) != RejectKey(x) {
      RejectKeysDistinct(d[n], x);
    }
    OtherKeysAreNotStatic(x);
    UnpublishAllFrame(c, lib, d, RejectKey(x));
    PublishAllFrame(c1, lib, a, RejectKey(x));
    StaticHitsOfDistinct(lib, d, x);
    StaticHitsOfDistinct(lib, a, x);
    UnpublishAllCount(c, lib, d, StaticRouteKey(x));
    PublishAllCount(c1, lib, a, StaticRouteKey(x));
  }

  // ---------------------------------------------------------------------
  // BGPConfiguration IgnoredInterfaces
  // ---------------------------------------------------------------------

  /** The ignored interfaces are published comma-joined under one global key;
      an empty list removes the key. */
  function SetIgnoredInterfaces(c: ClientState, ifaces: seq<string>): ClientState {
    if ifaces == [] then DeleteKey(c, IgnoredInterfacesKey)
    else PutKey(c, IgnoredInterfacesKey, Join(ifaces, ","))
  }

  /** The published value splits back into the interface names, and nothing
      else in the cache changes. */
  lemma IgnoredInterfacesRoundTrip(c: ClientState, ifaces: seq<string>)
    requires forall i :: 0 <= i < |ifaces| ==> ',' !in ifaces[i]
    ensures ifaces != [] ==> IgnoredInterfacesKey in SetIgnoredInterfaces(c, ifaces).cache
    ensures ifaces != [] ==> Split(SetIgnoredInterfaces(c, ifaces).cache[IgnoredInterfacesKey], ',') == ifaces
    ensures ifaces == [] ==> IgnoredInterfacesKey !in SetIgnoredInterfaces(c, ifaces).cache
    ensures forall k :: k != IgnoredInterfacesKey ==>
      (k in SetIgnoredInterfaces(c, ifaces).cache <==> k in c.cache)
    ensures CInv(c) ==> CInv(SetIgnoredInterfaces(c, ifaces))
  {
    if ifaces != [] {
      SplitJoin(ifaces, ',');
    }
    OtherKeysAreNotStatic("");
  }
}
