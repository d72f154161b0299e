/**
 * Addresses and ranges as the route engine uses them. An address is a family
 * and a numeric value; a range (Go's `*net.IPNet`) is a base address and a
 * prefix length. Parsing text into these values is done by Go's `net`
 * package, which is foreign to this model: it is a parameter, `NetLib`.
 */
module Net {
  import opened Wrappers

  datatype Family = V4 | V6

  /** Address width in bits: 32 for IPv4, 128 for IPv6. */
  function Width(f: Family): nat {
    if f == V4 then 32 else 128
  }

  datatype IP = IP(family: Family, value: nat)

  datatype IPNet = IPNet(base: IP, prefix: nat)

  function Pow2(n: nat): (r: nat)
    ensures r >= 1
  {
    if n == 0 then 1 else 2 * Pow2(n - 1)
  }

  /** `net.IPNet.Contains`: same family and the first `prefix` bits agree. */
  predicate Contains(n: IPNet, ip: IP) {
    var w := Width(ip.family);
    n.base.family == ip.family && n.prefix <= w
    && ip.value / Pow2(w - n.prefix) == n.base.value / Pow2(w - n.prefix)
  }

  /** A range that holds exactly one address: a /32 for IPv4, a /128 for IPv6. */
  predicate SingleHost(n: IPNet) {
    n.prefix == Width(n.base.family)
  }

  lemma SingleHostContainsOnlyItsBase(n: IPNet, ip: IP)
    requires SingleHost(n)
    ensures Contains(n, ip) <==> ip == n.base
  {
    assert Pow2(0) == 1;
  }

  /** Some range of the list contains the address; there is no precedence. */
  predicate Covers(nets: seq<IPNet>, ip: IP) {
    exists i :: 0 <= i < |nets| && Contains(nets[i], ip)
  }

  /** The two entry points of Go's `net` package the engine relies on:
      `net.ParseIP` and `net.ParseCIDR` (None stands for nil / an error). */
  datatype NetLib = NetLib(parseIP: string -> Option<IP>, parseCIDR: string -> Option<IPNet>)

  /** The dotted-quad address a.b.c.d. */
  function V4Addr(a: nat, b: nat, c: nat, d: nat): IP {
    IP(V4, ((a * 256 + b) * 256 + c) * 256 + d)
  }

  /** The address text is within some range of the list, once parsed. */
  predicate Allowed(lib: NetLib, nets: seq<IPNet>, text: string) {
    match lib.parseIP(text)
    case None => false
    case Some(ip) => Covers(nets, ip)
  }
}
