/** The addresses handed out over a whole provisioning tree: every node divides the device network that its provider
    gave it, so a node is named by the path of provider orientations that leads to it from the root. */
module AddressTree {
  import opened Bits
  import opened Networks

  const CENTER: U8 := 5

  /** The orientations of forwarders. */
  predicate IsForwarder(o: U8) {
    1 <= o <= 4
  }

  type Path = seq<U8>

  predicate Forwarders(path: Path) {
    forall i :: 0 <= i < |path| ==> IsForwarder(path[i])
  }

  /** The node network at the end of a path. */
  function NodeNet(net: Network, path: Path): Network
    decreases |path|
  {
    if path == [] then net else NodeNet(GetNodeSubnet(net, path[0]), path[1..])
  }

  /** Every get_node_subnet on the way to the node, and at the node itself, stays within the shift bound. */
  predicate Divisible(net: Network, path: Path) {
    Aligned(net) && Forwarders(path) && Len(net) + 3 * |path| <= MAX_PARENT
  }

  /** A place in the tree whose addresses a device announces. */
  datatype Site =
    | HomeSubnet(path: Path)
    | DeviceLink(path: Path, o: U8)
    | RootUplink

  predicate IsSite(net: Network, site: Site) {
    match site
    case HomeSubnet(path) => Divisible(net, path)
    case DeviceLink(path, o) => Divisible(net, path) && IsForwarder(o)
    case RootUplink => Divisible(net, [])
  }

  function Region(net: Network, site: Site): Network {
    match site
    case HomeSubnet(path) => ApNet(HomeAp, GetNodeSubnet(NodeNet(net, path), CENTER))
    case DeviceLink(path, o) => ApNet(LinkAp, GetNodeSubnet(NodeNet(net, path), o))
    case RootUplink => ApNet(RootAp, net)
  }

  /** The block of the topmost network that a site lies in. */
  function TopBlock(site: Site): U8 {
    match site
    case HomeSubnet(path) => if path == [] then CENTER else path[0]
    case DeviceLink(path, o) => if path == [] then o else path[0]
    case RootUplink => 7
  }

  predicate IsDeeper(site: Site) {
    !site.RootUplink? && site.path != []
  }

  /** The same site, named from the node one step down. */
  function Below(site: Site): Site
    requires IsDeeper(site)
  {
    match site
    case HomeSubnet(path) => HomeSubnet(path[1..])
    case DeviceLink(path, o) => DeviceLink(path[1..], o)
  }

  /** Lengths grow by three per delegation, so from a /8 a node at depth 7 holds a /29 and cannot delegate further. */
  lemma {:induction false} DelegatedLength(net: Network, path: Path)
    requires Aligned(net) && Forwarders(path)
    requires path != [] ==> Len(net) + 3 * (|path| - 1) <= MAX_PARENT
    ensures Aligned(NodeNet(net, path)) && Len(NodeNet(net, path)) == Len(net) + 3 * |path|
    ensures Inside(NodeNet(net, path), net)
    ensures Len(net) == 8 ==> (Divisible(net, path) <==> |path| <= 6)
    decreases |path|
  {
    if path != [] {
      SubnetRefinesParent(net, path[0]);
      DelegatedLength(GetNodeSubnet(net, path[0]), path[1..]);
    }
  }

  lemma StepDown(net: Network, site: Site)
    requires IsSite(net, site) && IsDeeper(site)
    ensures var child := GetNodeSubnet(net, TopBlock(site));
            && IsSite(child, Below(site)) && Region(net, site) == Region(child, Below(site))
            && TopBlock(site) <= 4 && Inside(child, net)
  {
    SubnetRefinesParent(net, TopBlock(site));
  }

  lemma InsideTransitive(a: Network, b: Network, c: Network)
    requires Inside(a, b) && Inside(b, c)
    ensures Inside(a, c)
  {}

  /** A site's addresses lie in its top block, hence inside the network. */
  lemma {:induction false} SiteIsInTopBlock(net: Network, site: Site)
    requires IsSite(net, site)
    ensures Inside(Region(net, site), GetNodeSubnet(net, TopBlock(site)))
    ensures Inside(GetNodeSubnet(net, TopBlock(site)), net) && Inside(Region(net, site), net)
    decreases if site.RootUplink? then 0 else |site.path|
  {
    var top := TopBlock(site);
    SubnetRefinesParent(net, top);
    if IsDeeper(site) {
      StepDown(net, site);
      SiteIsInTopBlock(GetNodeSubnet(net, top), Below(site));
    } else {
      match site {
        case HomeSubnet(_) =>
        case DeviceLink(_, o) => LinkIsInDevice(GetNodeSubnet(net, o));
        case RootUplink => LastIsInBlockSeven(net, top);
      }
    }
    InsideTransitive(Region(net, site), GetNodeSubnet(net, top), net);
  }

  lemma DisjointInside(a: Network, b: Network, outerA: Network, outerB: Network)
    requires Inside(a, outerA) && Inside(b, outerB) && Disjoint(outerA, outerB)
    ensures Disjoint(a, b) && Disjoint(b, a)
  {}

  /** The link of the device whose network a child node divides avoids everything below that child. */
  lemma LinkAvoidsDescendants(net: Network, o: U8, site: Site)
    requires IsSite(net, site) && IsDeeper(site) && TopBlock(site) == o && IsForwarder(o)
    ensures Disjoint(LinkNet(GetNodeSubnet(net, o)), Region(net, site))
    ensures Disjoint(Region(net, site), LinkNet(GetNodeSubnet(net, o)))
  {
    StepDown(net, site);
    var child := GetNodeSubnet(net, o);
    LinkIsInBlockZero(child, 0);
    SiteIsInTopBlock(child, Below(site));
    SubnetsOfSiblingsAreDisjoint(child, 0, TopBlock(Below(site)));
    DisjointInside(LinkNet(child), Region(net, site), GetNodeSubnet(child, 0),
      GetNodeSubnet(child, TopBlock(Below(site))));
  }

  /** Over every provisioning tree: the home subnets, the links at the base of the device networks and the root's uplink
      are pairwise disjoint and lie inside the root network. */
  lemma {:induction false} TreeIsConflictFree(net: Network, a: Site, b: Site)
    requires IsSite(net, a) && IsSite(net, b) && a != b
    ensures Disjoint(Region(net, a), Region(net, b))
    ensures Inside(Region(net, a), net) && Inside(Region(net, b), net)
    decreases if a.RootUplink? then 0 else |a.path|
  {
    SiteIsInTopBlock(net, a);
    SiteIsInTopBlock(net, b);
    if TopBlock(a) != TopBlock(b) {
      SubnetsOfSiblingsAreDisjoint(net, TopBlock(a), TopBlock(b));
      DisjointInside(Region(net, a), Region(net, b), GetNodeSubnet(net, TopBlock(a)), GetNodeSubnet(net, TopBlock(b)));
    } else if IsDeeper(a) && IsDeeper(b) {
      StepDown(net, a);
      StepDown(net, b);
      SameBelow(a, b);
      TreeIsConflictFree(GetNodeSubnet(net, TopBlock(a)), Below(a), Below(b));
    } else if IsDeeper(a) {
      StepDown(net, a);
      LinkAvoidsDescendants(net, TopBlock(b), a);
    } else if IsDeeper(b) {
      StepDown(net, b);
      LinkAvoidsDescendants(net, TopBlock(a), b);
    }
  }

  lemma SameBelow(a: Site, b: Site)
    requires IsDeeper(a) && IsDeeper(b) && TopBlock(a) == TopBlock(b) && a != b
    ensures Below(a) != Below(b)
  {
    assert a.path == [a.path[0]] + a.path[1..];
    assert b.path == [b.path[0]] + b.path[1..];
  }
}
