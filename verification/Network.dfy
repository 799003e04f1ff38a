/** Peer addresses and the subnet that an address is accounted under (src/admission.rs). */
module Network {
  import opened Common

  datatype IpAddr =
    | V4(o0: u8, o1: u8, o2: u8, o3: u8)
    | V6(s0: u16, s1: u16, s2: u16, s3: u16, s4: u16, s5: u16, s6: u16, s7: u16)

  datatype SubnetKey = SubnetKey(addr: IpAddr, prefixLen: nat)

  /** An IPv4 address belongs to its /24, an IPv6 address to its /64. */
  function SubnetKeyOf(ip: IpAddr): SubnetKey {
    match ip
    case V4(a, b, c, _) => SubnetKey(V4(a, b, c, 0), 24)
    case V6(a, b, c, d, _, _, _, _) => SubnetKey(V6(a, b, c, d, 0, 0, 0, 0), 64)
  }

  /** A set of peers that one of the three connection caps counts together. */
  datatype Scope = Everyone | Subnet(key: SubnetKey) | Address(ip: IpAddr)

  predicate Covers(scope: Scope, ip: IpAddr) {
    match scope
    case Everyone => true
    case Subnet(key) => SubnetKeyOf(ip) == key
    case Address(a) => a == ip
  }

  // ---------------------------------------------------------------- subnets are prefixes

  /** The 24 bits of an IPv4 address that its network shares, or the 64 bits of an IPv6 address. */
  function Prefix(ip: IpAddr): nat {
    match ip
    case V4(_, _, _, _) => Value(ip) / 0x100
    case V6(_, _, _, _, _, _, _, _) => Value(ip) / 0x1_0000_0000_0000_0000
  }

  /** The address as one number, most significant part first. */
  function Value(ip: IpAddr): nat {
    match ip
    case V4(a, b, c, d) => Join(Join(Join(a as nat, b as nat, 0x100), c as nat, 0x100), d as nat, 0x100)
    case V6(a, b, c, d, e, f, g, h) => Join(Four(a, b, c, d), Four(e, f, g, h), 0x1_0000_0000_0000_0000)
  }

  function Four(a: u16, b: u16, c: u16, d: u16): (r: nat)
    ensures r < 0x1_0000_0000_0000_0000
  {
    Join(Join(Join(a as nat, b as nat, 0x1_0000), c as nat, 0x1_0000), d as nat, 0x1_0000)
  }

  function Join(high: nat, low: nat, base: nat): nat {
    high * base + low
  }

  lemma JoinOrders(high: nat, low: nat, high': nat, low': nat, base: nat)
    requires high < high' && low < base
    ensures Join(high, low, base) < Join(high', low', base)
  {
    var d := high' - high - 1;
    assert d * base >= 0;
    calc {
      high' * base;
      (high + 1 + d) * base;
      high * base + base + d * base;
    }
  }

  lemma JoinIsUnique(high: nat, low: nat, high': nat, low': nat, base: nat)
    requires low < base && low' < base
    ensures Join(high, low, base) == Join(high', low', base) <==> high == high' && low == low'
  {
    if high < high' {
      JoinOrders(high, low, high', low', base);
    } else if high' < high {
      JoinOrders(high', low', high, low, base);
    }
  }

  lemma JoinDivides(high: nat, low: nat, base: nat)
    requires low < base
    ensures Join(high, low, base) / base == high
  {
    JoinIsUnique(Join(high, low, base) / base, Join(high, low, base) % base, high, low, base);
  }

  /** Two addresses are accounted together exactly if they are of one family and share its prefix. */
  lemma SubnetsArePrefixes(x: IpAddr, y: IpAddr)
    ensures SubnetKeyOf(x) == SubnetKeyOf(y) <==> x.V4? == y.V4? && Prefix(x) == Prefix(y)
  {
    if x.V4? && y.V4? {
      PrefixV4(x);
      PrefixV4(y);
      var p, q := Join(x.o0 as nat, x.o1 as nat, 0x100), Join(y.o0 as nat, y.o1 as nat, 0x100);
      JoinIsUnique(p, x.o2 as nat, q, y.o2 as nat, 0x100);
      JoinIsUnique(x.o0 as nat, x.o1 as nat, y.o0 as nat, y.o1 as nat, 0x100);
    } else if x.V6? && y.V6? {
      JoinDivides(Four(x.s0, x.s1, x.s2, x.s3), Four(x.s4, x.s5, x.s6, x.s7), 0x1_0000_0000_0000_0000);
      JoinDivides(Four(y.s0, y.s1, y.s2, y.s3), Four(y.s4, y.s5, y.s6, y.s7), 0x1_0000_0000_0000_0000);
      var p, q := Join(x.s0 as nat, x.s1 as nat, 0x1_0000), Join(y.s0 as nat, y.s1 as nat, 0x1_0000);
      JoinIsUnique(Join(p, x.s2 as nat, 0x1_0000), x.s3 as nat, Join(q, y.s2 as nat, 0x1_0000), y.s3 as nat, 0x1_0000);
      JoinIsUnique(p, x.s2 as nat, q, y.s2 as nat, 0x1_0000);
      JoinIsUnique(x.s0 as nat, x.s1 as nat, y.s0 as nat, y.s1 as nat, 0x1_0000);
    }
  }

  lemma PrefixV4(ip: IpAddr)
    requires ip.V4?
    ensures Prefix(ip) == Join(Join(ip.o0 as nat, ip.o1 as nat, 0x100), ip.o2 as nat, 0x100)
  {
    JoinDivides(Join(Join(ip.o0 as nat, ip.o1 as nat, 0x100), ip.o2 as nat, 0x100), ip.o3 as nat, 0x100);
  }
}
