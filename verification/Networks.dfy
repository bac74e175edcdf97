/** Addresses, masks and the three-bit hierarchical subnetting of utils.c and node.c. */
module Networks {
  import opened Bits

  /** network_t: an address and a mask in host order. */
  datatype Network = Network(addr: U32, mask: U32)

  const NONE := Network(0, 0)

  predicate Contains(net: Network, ip: U32) {
    And(ip, net.mask) == net.addr
  }

  ghost predicate Inside(inner: Network, outer: Network) {
    forall ip: U32 :: Contains(inner, ip) ==> Contains(outer, ip)
  }

  ghost predicate Disjoint(a: Network, b: Network) {
    forall ip: U32 :: !(Contains(a, ip) && Contains(b, ip))
  }

  // ---------- mask_size ----------

  /** 32 minus the number of trailing zeros, and 0 for 0. */
  function MaskSize(n: U32): (c: nat)
    ensures c <= 32 && (n > 0 ==> c > 0)
  {
    if n == 0 then 0 else Pow2Of32(); TrailingZerosBound(n, 32); 32 - TrailingZeros(n)
  }

  /** The contiguous mask with `len` leading ones. */
  function Prefix(len: nat): U32
    requires len <= 32
  {
    Pow2Of32();
    Pow2Monotone(32 - len, 32);
    TWO32 - Pow2(32 - len)
  }

  lemma PrefixSize(len: nat)
    requires len <= 32
    ensures MaskSize(Prefix(len)) == len
  {
    Pow2Of32();
    if len > 0 { TrailingZerosOfPrefix(32, 32 - len); }
  }

  /** The loop of mask_size. */
  method ComputeMaskSize(n: U32) returns (c: nat)
    ensures c == MaskSize(n)
    ensures forall len :: 0 <= len <= 32 && n == Prefix(len) ==> c == len
  {
    var rest: U32 := n;
    c := 0;
    while rest != 0
      invariant c <= 32
      invariant rest > 0 ==> n > 0 && TrailingZeros(rest) == TrailingZeros(n) + c
      invariant rest == 0 ==> c == MaskSize(n)
      decreases 32 - c
    {
      ShiftOnce(rest);
      Pow2Of32();
      TrailingZerosBound(rest, 32);
      rest := (rest * 2) % TWO32;
      c := c + 1;
    }
    forall len | 0 <= len <= 32 && n == Prefix(len) ensures c == len { PrefixSize(len); }
  }

  /** The order of contiguous masks as numbers, which the routing table sorts by, is the order of prefix lengths. */
  lemma PrefixOrder(a: nat, b: nat)
    requires a <= 32 && b <= 32
    ensures Prefix(a) < Prefix(b) <==> a < b
  {
    if a < b { Pow2Monotone(32 - b, 32 - a); } else { Pow2Monotone(32 - a, 32 - b); }
  }

  // ---------- aligned networks are intervals ----------

  function Len(net: Network): (l: nat)
    ensures l <= 32
  {
    MaskSize(net.mask)
  }

  function Size(len: nat): nat
    requires len <= 32
  {
    Pow2(32 - len)
  }

  /** A contiguous mask and an address with no host bits. */
  predicate Aligned(net: Network) {
    net.mask == Prefix(Len(net)) && And(net.addr, net.mask) == net.addr
  }

  lemma MaskClearsHosts(ip: U32, len: nat)
    requires len <= 32
    ensures And(ip, Prefix(len)) == Down(ip, 32 - len)
  {
    Pow2Of32();
    AndWithPrefix(ip, 32, 32 - len);
  }

  lemma AlignedIsInterval(net: Network, ip: U32)
    requires Aligned(net)
    ensures Down(net.addr, 32 - Len(net)) == net.addr
    ensures Contains(net, ip) <==> net.addr <= ip < net.addr + Size(Len(net))
  {
    MaskClearsHosts(ip, Len(net));
    MaskClearsHosts(net.addr, Len(net));
    DownIsInterval(ip, net.addr, 32 - Len(net));
  }

  lemma IntervalIsAligned(addr: U32, len: nat)
    requires len <= 32 && Down(addr, 32 - len) == addr
    ensures Aligned(Network(addr, Prefix(len))) && Len(Network(addr, Prefix(len))) == len
  {
    PrefixSize(len);
    MaskClearsHosts(addr, len);
  }

  lemma AlignedFits(net: Network)
    requires Aligned(net)
    ensures net.addr + Size(Len(net)) <= TWO32
  {
    Pow2Of32();
    AlignedIsInterval(net, net.addr);
    DownPow2(32, 32 - Len(net));
    AlignedGap(net.addr, TWO32, 32 - Len(net));
  }

  // ---------- get_node_subnet ----------

  /** get_node_subnet computes with the signed constant 1. For parents up to this length all shift counts are less
      than 32 and nothing is subtracted from the smallest number; that the bits come out as written here still takes a
      compiler that shifts signed numbers in two's complement and drops what leaves bit 31, as GCC documents that it
      does. With a parent of length 28 the subtraction overflows, and with a longer one a shift count reaches 32. */
  const MAX_PARENT: nat := 27

  /** get_node_subnet; past MAX_PARENT the shifts are as said above and nothing is claimed of the value given here. */
  function GetNodeSubnet(net: Network, orientation: U8): Network {
    if MaskSize(net.mask) > MAX_PARENT then net else
    var prefixLen := MaskSize(net.mask) + 3;
    var newMask := BuildMask(prefixLen);
    Network(Or(net.addr, Shl32(orientation, 32 - MaskSize(newMask))) % TWO32, newMask)
  }

  /** ((1 << p) - 1) << (32 - p), the mask that get_node_subnet builds. */
  function BuildMask(p: nat): U32
    requires p <= 32
  {
    Shl32((Shl32(1, p) + TWO32 - 1) % TWO32, 32 - p)
  }

  lemma OneShifted(p: nat)
    requires p <= 31
    ensures Shl32(1, p) == Pow2(p) < TWO32
  {
    Pow2Of32();
    Pow2Monotone(p, 31);
    ScalePow2(0, p);
    ShlScales(1, p);
  }

  lemma OnesShifted(p: nat)
    requires 1 <= p <= 31
    ensures Pow2(p) < TWO32 && Pow2(32 - p) <= TWO32 && Shl32(Pow2(p) - 1, 32 - p) == TWO32 - Pow2(32 - p)
  {
    Pow2Of32();
    Pow2Monotone(p, 31);
    ScaleSum(Pow2(p) - 1, 1, 32 - p);
    ScalePow2(p, 32 - p);
    ScalePow2(0, 32 - p);
    ShlScales(Pow2(p) - 1, 32 - p);
  }

  /** Subtracting one in 32 bits. */
  lemma OneLess(x: nat)
    requires 0 < x < TWO32
    ensures (x + TWO32 - 1) % TWO32 == x - 1
  {}

  lemma OnesBuilt(p: nat)
    requires 3 <= p <= 30
    ensures (Shl32(1, p) + TWO32 - 1) % TWO32 == Pow2(p) - 1
  {
    OneShifted(p);
    OneLess(Shl32(1, p));
  }

  lemma MaskBuilt(p: nat)
    requires 3 <= p <= 30
    ensures Pow2(32 - p) <= TWO32 && BuildMask(p) == TWO32 - Pow2(32 - p)
  {
    OnesBuilt(p);
    OnesShifted(p);
  }

  lemma BuildsPrefix(p: nat)
    requires 3 <= p <= 30
    ensures BuildMask(p) == Prefix(p) && MaskSize(BuildMask(p)) == p
  {
    MaskBuilt(p);
    PrefixSize(p);
  }

  lemma {:induction false} ScaleMonotone(a: nat, b: nat, k: nat)
    requires a <= b
    ensures Scale(a, k) <= Scale(b, k)
  {
    if k > 0 { ScaleMonotone(a, b, k - 1); }
  }

  /** Block `a` of blocks of 2^k ends where block a + 1 begins, and the eighth ends 2^(k + 3) further on. */
  lemma BlockEnds(a: nat, b: nat, k: nat)
    requires a < b <= 8
    ensures Scale(a, k) + Pow2(k) <= Scale(b, k) <= Pow2(k + 3) == 8 * Pow2(k)
  {
    ScaleSum(a, 1, k);
    ScalePow2(0, k);
    ScalePow2(3, k);
    assert Pow2(3) == 8;
    assert Pow2(k + 3) == 2 * Pow2(k + 2) && Pow2(k + 2) == 2 * Pow2(k + 1);
    ScaleMonotone(a + 1, b, k);
    ScaleMonotone(b, 8, k);
  }

  lemma BlockArithmetic(addr: nat, o: nat, k: nat)
    requires o <= 7 && k <= 29 && Down(addr, k + 3) == addr && addr + Pow2(k + 3) <= TWO32
    ensures var a := addr + Scale(o, k);
            && Or(addr, Shl32(o, k)) == a < TWO32 && Down(a, k) == a
            && a + Pow2(k) <= addr + Pow2(k + 3) && Pow2(k + 3) == 8 * Pow2(k)
  {
    BlockEnds(o, 8, k);
    ShlScales(o, k);
    ScaleIsAligned(o, k);
    OrIsSum(addr, Scale(o, k), k + 3);
    DownWeaken(addr, k + 3, k);
    DownAdd(addr, Scale(o, k), k);
  }

  lemma BlockValue(addr: nat, o: nat, k: nat)
    requires o <= 7 && k <= 29 && Down(addr, k + 3) == addr && addr + Pow2(k + 3) <= TWO32
    ensures var a := addr + Scale(o, k);
            && a < TWO32 && Or(addr, Shl32(o, k)) % TWO32 == a && Down(a, k) == a
            && a + Pow2(k) <= addr + Pow2(k + 3) && Pow2(k + 3) == 8 * Pow2(k)
  {
    BlockArithmetic(addr, o, k);
    ModSmall(Or(addr, Shl32(o, k)));
  }

  lemma AlignedBlock(net: Network, k: nat)
    requires Aligned(net) && k + 3 == 32 - Len(net)
    ensures Down(net.addr, k + 3) == net.addr && net.addr + Pow2(k + 3) <= TWO32
  {
    AlignedIsInterval(net, net.addr);
    AlignedFits(net);
  }

  lemma BlockAddress(net: Network, o: nat, k: nat)
    requires Aligned(net) && Len(net) <= MAX_PARENT && o <= 7 && k == 29 - Len(net)
    ensures var a := net.addr + Scale(o, k);
            && a < TWO32 && Or(net.addr, Shl32(o, k)) % TWO32 == a && Down(a, k) == a
            && a + Pow2(k) <= net.addr + Pow2(k + 3) && Pow2(k + 3) == 8 * Pow2(k)
  {
    AlignedBlock(net, k);
    BlockValue(net.addr, o, k);
  }

  lemma SubnetValue(net: Network, o: U8)
    requires Aligned(net) && Len(net) <= MAX_PARENT && o <= 7
    ensures GetNodeSubnet(net, o).mask == Prefix(Len(net) + 3)
    ensures GetNodeSubnet(net, o).addr == net.addr + Scale(o, 29 - Len(net))
  {
    BuildsPrefix(Len(net) + 3);
    BlockAddress(net, o, 29 - Len(net));
  }

  lemma BlockIsAligned(net: Network, len: nat, k: nat)
    requires len <= 32 && k == 32 - len && net.mask == Prefix(len) && Down(net.addr, k) == net.addr
    ensures Aligned(net) && Len(net) == len
  {
    IntervalIsAligned(net.addr, len);
  }

  /** What the shifts and the `|` of get_node_subnet amount to: block `o` of eight equal blocks of the parent. */
  lemma SubnetIsBlock(net: Network, o: U8)
    requires Aligned(net) && Len(net) <= MAX_PARENT && o <= 7
    ensures var c, s := GetNodeSubnet(net, o), Size(Len(net) + 3);
            && Aligned(c) && Len(c) == Len(net) + 3 && c.addr == net.addr + Scale(o, 29 - Len(net))
            && Size(Len(net)) == 8 * s && c.addr + s <= net.addr + 8 * s
  {
    var k := 29 - Len(net);
    assert 32 - (Len(net) + 3) == k && 32 - Len(net) == k + 3;
    SubnetValue(net, o);
    BlockAddress(net, o, k);
    BlockIsAligned(GetNodeSubnet(net, o), Len(net) + 3, k);
  }

  lemma IntervalInside(inner: Network, outer: Network)
    requires Aligned(inner) && Aligned(outer) && outer.addr <= inner.addr
    requires inner.addr + Size(Len(inner)) <= outer.addr + Size(Len(outer))
    ensures Inside(inner, outer)
  {
    forall ip: U32 | Contains(inner, ip) ensures Contains(outer, ip) {
      AlignedIsInterval(inner, ip);
      AlignedIsInterval(outer, ip);
    }
  }

  lemma IntervalsDisjoint(a: Network, b: Network)
    requires Aligned(a) && Aligned(b) && a.addr + Size(Len(a)) <= b.addr
    ensures Disjoint(a, b) && Disjoint(b, a)
  {
    forall ip: U32 ensures !(Contains(a, ip) && Contains(b, ip)) {
      AlignedIsInterval(a, ip);
      AlignedIsInterval(b, ip);
    }
  }

  /** A child of an aligned parent is aligned, three bits longer, and inside the parent. */
  lemma SubnetRefinesParent(net: Network, o: U8)
    requires Aligned(net) && Len(net) <= MAX_PARENT && o <= 7
    ensures var c := GetNodeSubnet(net, o); Aligned(c) && Len(c) == Len(net) + 3 && Inside(c, net)
  {
    SubnetIsBlock(net, o);
    IntervalInside(GetNodeSubnet(net, o), net);
  }

  /** Different blocks of one parent share no address, so the subnet is injective in the orientation. */
  lemma SubnetsOfSiblingsAreDisjoint(net: Network, a: U8, b: U8)
    requires Aligned(net) && Len(net) <= MAX_PARENT && a <= 7 && b <= 7 && a != b
    ensures Disjoint(GetNodeSubnet(net, a), GetNodeSubnet(net, b))
    ensures GetNodeSubnet(net, a) != GetNodeSubnet(net, b)
  {
    if a > b {
      SubnetsOfSiblingsAreDisjoint(net, b, a);
    } else {
      SubnetIsBlock(net, a);
      SubnetIsBlock(net, b);
      BlockEnds(a, b, 29 - Len(net));
      IntervalsDisjoint(GetNodeSubnet(net, a), GetNodeSubnet(net, b));
    }
  }

  lemma {:induction false} FindBlock(d: nat, b: nat, k: nat) returns (o: nat)
    requires d < Scale(b, k)
    ensures o < b && Scale(o, k) <= d < Scale(o + 1, k)
    decreases b
  {
    ScaleOfZero(k);
    o := b - 1;
    if d < Scale(o, k) { o := FindBlock(d, o, k); }
  }

  lemma {:induction false} ScaleOfZero(k: nat)
    ensures Scale(0, k) == 0
  {
    if k > 0 { ScaleOfZero(k - 1); }
  }

  lemma BlockExtent(o: nat, k: nat)
    ensures Scale(o + 1, k) == Scale(o, k) + Pow2(k) && Scale(8, k) == 8 * Pow2(k)
  {
    ScaleSum(o, 1, k);
    ScalePow2(0, k);
    BlockEnds(7, 8, k);
    ScalePow2(3, k);
    assert Pow2(3) == 8;
  }

  /** The eight blocks of an aligned network cover it: together with disjointness they partition it. */
  lemma SubnetsCoverParent(net: Network, ip: U32) returns (o: U8)
    requires Aligned(net) && Len(net) <= MAX_PARENT && Contains(net, ip)
    ensures o <= 7 && Contains(GetNodeSubnet(net, o), ip)
  {
    var k := 29 - Len(net);
    BlockExtent(0, k);
    AlignedIsInterval(net, ip);
    SubnetIsBlock(net, 0);
    var found := FindBlock(ip - net.addr, 8, k);
    o := found;
    BlockExtent(o, k);
    SubnetHolds(net, o, ip);
  }

  lemma SubnetHolds(net: Network, o: U8, ip: U32)
    requires Aligned(net) && Len(net) <= MAX_PARENT && o <= 7
    requires var a := net.addr + Scale(o, 29 - Len(net)); a <= ip < a + Pow2(29 - Len(net))
    ensures Contains(GetNodeSubnet(net, o), ip)
  {
    SubnetIsBlock(net, o);
    AlignedIsInterval(GetNodeSubnet(net, o), ip);
  }

  // ---------- node_set_as_ap ----------

  const MASK30: U32 := 0xFFFF_FFFC

  /** The /30 at the base of a device network: the wireless link a forwarder offers. */
  function LinkNet(device: Network): Network {
    Network(device.addr, MASK30)
  }

  /** The last /30 of a network, which the root's center offers. */
  function LastNet30(net: Network): Network {
    Network(And((Or(net.addr, Not32(net.mask)) + TWO32 - 3) % TWO32, MASK30), MASK30)
  }

  lemma Slash30()
    ensures MASK30 == Prefix(30) && Size(30) == 4
  {
    Pow2Of32();
  }

  lemma LinkIsInterval(net: Network)
    requires Aligned(net) && Len(net) <= 30
    ensures Aligned(LinkNet(net)) && Len(LinkNet(net)) == 30 && Size(Len(net)) >= 4
  {
    Slash30();
    AlignedIsInterval(net, net.addr);
    DownWeaken(net.addr, 32 - Len(net), 2);
    IntervalIsAligned(net.addr, 30);
    Pow2Monotone(2, 32 - Len(net));
  }

  lemma LastShape(net: Network, top: nat)
    requires Aligned(net) && Len(net) <= 30 && top == net.addr + Size(Len(net)) - 1
    ensures Size(Len(net)) >= 4 && top < TWO32 && Or(net.addr, Not32(net.mask)) == top
    ensures Down(top - 3, 2) == top - 3
  {
    AlignedIsInterval(net, net.addr);
    AlignedFits(net);
    LastArithmetic(net.addr, 32 - Len(net));
  }

  /** The low bits 11 that the subtraction of 3 removes are cleared by the mask in any case. */
  lemma LessThree(x: nat)
    requires 3 <= x < TWO32
    ensures (x + TWO32 - 3) % TWO32 == x - 3
  {}

  lemma LastValue(net: Network, top: nat)
    requires Aligned(net) && Len(net) <= 30 && top == net.addr + Size(Len(net)) - 1
    ensures Size(Len(net)) >= 4 && LastNet30(net) == Network(top - 3, Prefix(30)) && Down(top - 3, 2) == top - 3
  {
    LastShape(net, top);
    LessThree(top);
    Slash30();
    MaskClearsHosts(top - 3, 30);
  }

  lemma LastIsInterval(net: Network)
    requires Aligned(net) && Len(net) <= 30
    ensures var last := LastNet30(net);
            Aligned(last) && Len(last) == 30 && Size(Len(net)) >= 4 && last.addr == net.addr + Size(Len(net)) - 4
  {
    LastValue(net, net.addr + Size(Len(net)) - 1);
    BlockIsAligned(LastNet30(net), 30, 2);
  }

  lemma LastArithmetic(addr: nat, k: nat)
    requires k >= 2 && Down(addr, k) == addr
    ensures Pow2(k) >= 4 && Or(addr, Pow2(k) - 1) == addr + Pow2(k) - 1
    ensures var last := addr + Pow2(k) - 4; Down(last, 2) == last
  {
    OrIsSum(addr, Pow2(k) - 1, k);
    assert Pow2(2) == 4;
    Pow2Monotone(2, k);
    DownPow2(k, 2);
    DownWeaken(addr, k, 2);
    DownAdd(addr, Pow2(k), 2);
    assert Down(4, 2) == 4;
    DownSub(addr + Pow2(k), 4, 2);
  }

  /** A device link lies in the device network. */
  lemma LinkIsInDevice(net: Network)
    requires Aligned(net) && Len(net) <= 30
    ensures Inside(LinkNet(net), net)
  {
    LinkIsInterval(net);
    Slash30();
    IntervalInside(LinkNet(net), net);
  }

  /** The only blocks that no orientation is given are 0 and 7. */
  lemma SubnetEnds(net: Network, first: U8, last: U8)
    requires Aligned(net) && Len(net) <= MAX_PARENT && first == 0 && last == 7
    ensures Aligned(GetNodeSubnet(net, first)) && GetNodeSubnet(net, first).addr == net.addr
    ensures Len(GetNodeSubnet(net, first)) == Len(net) + 3
    ensures var c := GetNodeSubnet(net, last);
            Aligned(c) && Len(c) == Len(net) + 3 && c.addr + Size(Len(c)) == net.addr + Size(Len(net))
  {
    SubnetIsBlock(net, first);
    ScaleOfZero(29 - Len(net));
    SubnetIsBlock(net, last);
    BlockExtent(last, 29 - Len(net));
  }

  /** Where a device network can be divided again, its link lies in its block 0. */
  lemma LinkIsInBlockZero(net: Network, first: U8)
    requires Aligned(net) && Len(net) <= MAX_PARENT && first == 0
    ensures Inside(LinkNet(net), GetNodeSubnet(net, first))
  {
    SubnetEnds(net, first, 7);
    LinkIsInDevice(GetNodeSubnet(net, first));
  }

  /** The uplink of the root's center lies in block 7. */
  lemma LastIsInBlockSeven(net: Network, last: U8)
    requires Aligned(net) && Len(net) <= MAX_PARENT && last == 7
    ensures Inside(LastNet30(net), GetNodeSubnet(net, last))
  {
    SubnetEnds(net, 0, last);
    LastIsInterval(net);
    Slash30();
    Pow2Monotone(2, 32 - (Len(net) + 3));
    IntervalInside(LastNet30(net), GetNodeSubnet(net, last));
  }

  datatype ApRole = RootAp | HomeAp | LinkAp

  /** The network that a device of each role announces. */
  function ApNet(role: ApRole, net: Network): Network {
    match role
    case RootAp => LastNet30(net)
    case HomeAp => net
    case LinkAp => LinkNet(net)
  }

  lemma ApIsInNetwork(role: ApRole, net: Network)
    requires Aligned(net) && Len(net) <= 30
    ensures var ap := ApNet(role, net); Inside(ap, net) && Aligned(ap) && Size(Len(ap)) >= 4
  {
    Slash30();
    LinkIsInterval(net);
    LinkIsInDevice(net);
    LastIsInterval(net);
    IntervalInside(LastNet30(net), net);
  }

  lemma HostsOfAp(ap: Network)
    requires Aligned(ap) && Size(Len(ap)) >= 4
    ensures ap.addr + 2 < TWO32 && Contains(ap, ap.addr + 1) && Contains(ap, ap.addr + 2)
  {
    AlignedFits(ap);
    AlignedIsInterval(ap, ap.addr + 1);
    AlignedIsInterval(ap, ap.addr + 2);
  }

  /** The announced network, the gateway and the device's own address, which node_set_as_ap computes by reassigning its
      arguments. */
  method NodeSetAsAp(role: ApRole, net: Network) returns (ap: Network, gateway: U32, self: U32)
    ensures ap == ApNet(role, net)
    ensures gateway == (ap.addr + if role == HomeAp then 1 else 2) % TWO32 && self == (ap.addr + 1) % TWO32
  {
    var network, mask := net.addr, net.mask;
    var last := LastNet30(net).addr;
    if role == RootAp {
      network := last;
      mask := 0xFFFF_FFFC;
      gateway := (network + 2) % TWO32;
    } else if role == HomeAp {
      gateway := (network + 1) % TWO32;
    } else {
      mask := 0xFFFF_FFFC;
      gateway := (network + 2) % TWO32;
    }
    ap := Network(network, mask);
    self := (network + 1) % TWO32;
  }

  /** Everything a device announces lies in the network it was given: the announced network, its own address and the
      gateway, which the announced network contains. */
  lemma AnnouncementsAreInside(role: ApRole, net: Network)
    requires Aligned(net) && Len(net) <= 30
    ensures var ap := ApNet(role, net);
            && Inside(ap, net) && ap.addr + 2 < TWO32
            && Contains(ap, ap.addr + 1) && Contains(ap, ap.addr + 2)
  {
    ApIsInNetwork(role, net);
    HostsOfAp(ApNet(role, net));
  }
}
