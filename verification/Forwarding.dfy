/** Where a packet goes inside a node: the routing hooks of the boards, the decision of rt_do_route, and the way from
    board to board over the SPI ring until one of them sends the packet over Wi-Fi. */
module Forwarding {
  import opened Associations
  import opened Bits
  import opened Networks
  import opened RingPositions
  import opened RoutingTables

  datatype Hook = RootCenterHook | ForwarderHook | HomeHook | CustomHook | DefaultHook

  datatype Netif = Wifi | Spi

  datatype Link = Unlinked | Linked(net: Network)

  /** A board on the ring: its settings are node_device_subnet and node_device_mask, its link the wireless subnet. */
  datatype Station = Station(orientation: U8, hook: Hook, settings: Network, link: Link)

  /** rt_do_route */
  function DoRoute(table: Table, orientation: U8, dst: U32): Netif {
    if Lookup(table, dst) == orientation then Wifi else Spi
  }

  /** node_is_point_to_point_message */
  predicate PointToPoint(s: Station, dst: U32) {
    s.link.Linked? && Contains(s.link.net, dst)
  }

  /** node_do_routing once the interfaces are up. No custom hook is registered, which falls back to the default. */
  function Decision(s: Station, table: Table, dst: U32): Netif {
    match s.hook
    case RootCenterHook => if PointToPoint(s, dst) then Wifi else if Contains(s.settings, dst) then Spi else Wifi
    case ForwarderHook => if PointToPoint(s, dst) then Wifi else DoRoute(table, s.orientation, dst)
    case HomeHook => if Contains(s.settings, dst) then Wifi else Spi
    case CustomHook | DefaultHook => Spi
  }

  /** routing_hooks.c: the selected hook. */
  class RoutingHooks {
    var selected: Hook

    constructor ()
      ensures selected == DefaultHook
    {
      selected := DefaultHook;
    }

    /** node_set_routing_hook: an index outside the table selects the default. */
    method SetRoutingHook(hook: nat)
      modifies this
      ensures 0 <= hook < 4 ==> selected == [RootCenterHook, ForwarderHook, HomeHook, CustomHook][hook]
      ensures hook >= 4 ==> selected == DefaultHook
    {
      var hooks := [RootCenterHook, ForwarderHook, HomeHook, CustomHook];
      if hook < |hooks| { selected := hooks[hook]; } else { selected := DefaultHook; }
    }
  }

  // ---------- the way through the node ----------

  datatype Fate = LeavesAt(station: nat, hops: nat) | StillInside

  /** The packet at board `at`, for at most `limit` SPI hops. All boards route with the same table. */
  function Travel(stations: seq<Station>, table: Table, at: nat, dst: U32, limit: nat): Fate
    requires at < |stations|
    decreases limit
  {
    if Decision(stations[at], table, dst) == Wifi then LeavesAt(at, 0)
    else if limit == 0 then StillInside
    else
      match Travel(stations, table, Around(at, 1, |stations|), dst, limit - 1)
      case LeavesAt(station, hops) => LeavesAt(station, hops + 1)
      case StillInside => StillInside
  }

  /** One center with its own hook, forwarders elsewhere, in any cyclic order, and no two with one orientation. */
  predicate IsNode(stations: seq<Station>, center: nat) {
    && center < |stations|
    && (stations[center].hook == HomeHook || stations[center].hook == RootCenterHook)
    && (forall p :: 0 <= p < |stations| && p != center ==> stations[p].hook == ForwarderHook)
    && (forall p, q :: 0 <= p < q < |stations| ==> stations[p].orientation != stations[q].orientation)
  }

  /** The address is on no forwarder's wireless link. */
  predicate OffLinks(stations: seq<Station>, center: nat, dst: U32) {
    forall p :: 0 <= p < |stations| && p != center ==> !PointToPoint(stations[p], dst)
  }

  /** The center's hook does not look at the table; it agrees with it on an address if it takes Wi-Fi just when the
      table names the center. */
  predicate CenterAgrees(s: Station, table: Table, dst: U32) {
    Decision(s, table, dst) == DoRoute(table, s.orientation, dst)
  }

  lemma {:induction false} TravelsTo(stations: seq<Station>, table: Table, at: nat, dst: U32, target: nat, limit: nat)
    requires at < |stations| && target < |stations| && Distance(at, target, |stations|) <= limit
    requires forall p :: 0 <= p < |stations| ==> (Decision(stations[p], table, dst) == Wifi <==> p == target)
    ensures Travel(stations, table, at, dst, limit) == LeavesAt(target, Distance(at, target, |stations|))
    decreases limit
  {
    if at != target {
      AroundIs(at, 1, |stations|);
      TravelsTo(stations, table, Around(at, 1, |stations|), dst, target, limit - 1);
    }
  }

  /** From every board the packet travels exactly as far as the board that the table names, and leaves the node
      there. */
  ghost predicate DeliversTo(stations: seq<Station>, table: Table, dst: U32, target: nat)
    requires target < |stations|
  {
    forall at :: 0 <= at < |stations| ==>
      Travel(stations, table, at, dst, |stations| - 1) == LeavesAt(target, Distance(at, target, |stations|))
  }

  /** A packet for an address on no link leaves by Wi-Fi at the board that the table names, after as many SPI hops as
      that board is away (at most one less than there are boards), from wherever it starts, if and only if the
      center's hook agrees with the table on the address. */
  lemma DeliveredExactlyIfCenterAgrees(stations: seq<Station>, center: nat, table: Table, dst: U32, target: nat)
    requires IsNode(stations, center) && OffLinks(stations, center, dst)
    requires target < |stations| && stations[target].orientation == Lookup(table, dst)
    ensures DeliversTo(stations, table, dst, target) <==> CenterAgrees(stations[center], table, dst)
  {
    if CenterAgrees(stations[center], table, dst) {
      forall at | 0 <= at < |stations|
        ensures Travel(stations, table, at, dst, |stations| - 1) == LeavesAt(target, Distance(at, target, |stations|))
      {
        TravelsTo(stations, table, at, dst, target, |stations| - 1);
      }
    } else {
      StayingMeansDistance(stations, table, center, dst, |stations| - 1);
      assert Distance(center, target, |stations|) == 0 <==> center == target;
      assert Travel(stations, table, center, dst, |stations| - 1)
             != LeavesAt(target, Distance(center, target, |stations|));
    }
  }

  lemma StayingMeansDistance(stations: seq<Station>, table: Table, at: nat, dst: U32, limit: nat)
    requires at < |stations|
    ensures var fate := Travel(stations, table, at, dst, limit);
            if Decision(stations[at], table, dst) == Wifi then fate == LeavesAt(at, 0)
            else fate == StillInside || fate.hops > 0
  {}

  /** An address whose route names a board that the node does not have keeps the packet going round. */
  lemma {:induction false} NoBoardNoExit(stations: seq<Station>, center: nat, table: Table, at: nat, dst: U32,
      limit: nat)
    requires IsNode(stations, center) && OffLinks(stations, center, dst) && CenterAgrees(stations[center], table, dst)
    requires at < |stations| && forall p :: 0 <= p < |stations| ==> stations[p].orientation != Lookup(table, dst)
    ensures Travel(stations, table, at, dst, limit) == StillInside
    decreases limit
  {
    if limit > 0 { NoBoardNoExit(stations, center, table, Around(at, 1, |stations|), dst, limit - 1); }
  }

  // ---------- when the center agrees ----------

  /** The table has one route to the center, for the network of its settings. Other routes may overlap it, if their
      prefixes are shorter. */
  ghost predicate RouteToCenterPrevails(s: Station, table: Table, i: nat) {
    && i < |table.entries| && table.entries[i] == Entry(s.settings, s.orientation)
    && table.defaultGateway != s.orientation
    && forall j :: 0 <= j < |table.entries| && j != i ==>
         && table.entries[j].value != s.orientation
         && (Disjoint(table.entries[j].key, s.settings) || table.entries[j].key.mask < s.settings.mask)
  }

  /** The center of a home with such a table agrees with it on every address. */
  lemma HomeCenterAgrees(s: Station, table: Table, i: nat, dst: U32)
    requires s.hook == HomeHook && WellFormed(table) && RouteToCenterPrevails(s, table, i)
    ensures CenterAgrees(s, table, dst)
  {
    var j := FirstMatch(table.entries, dst);
    if Contains(s.settings, dst) {
      assert Contains(table.entries[i].key, dst);
      assert j == i;
    }
  }

  /** A root's table: the center is the default gateway, and every route leads to another board, for addresses of the
      root's network. */
  ghost predicate RoutesStayInside(s: Station, table: Table) {
    && table.defaultGateway == s.orientation
    && forall j :: 0 <= j < |table.entries| ==>
         table.entries[j].value != s.orientation && Inside(table.entries[j].key, s.settings)
  }

  /** The center of the root then agrees with the table on an address off its own link unless the address is in the
      root's network and no route covers it: such a packet stays in the ring. */
  lemma RootCenterAgrees(s: Station, table: Table, dst: U32)
    requires s.hook == RootCenterHook && !PointToPoint(s, dst) && RoutesStayInside(s, table)
    ensures CenterAgrees(s, table, dst)
            <==> !(Contains(s.settings, dst) && forall net :: net in Abstract(table).routes ==> !Contains(net, dst))
  {
    var j := FirstMatch(table.entries, dst);
    if j < |table.entries| {
      KeysOfMap(table.entries, table.entries[j].key);
    } else {
      forall net | net in Abstract(table).routes ensures !Contains(net, dst) { KeysOfMap(table.entries, net); }
    }
  }

  /** A root whose default gateway has moved to another board disagrees on every address that nothing else covers. */
  lemma RootWithoutGatewayDisagrees(s: Station, table: Table, o: U8, dst: U32)
    requires s.hook == RootCenterHook && o != s.orientation && !Contains(s.settings, dst)
    requires FirstMatch(table.entries, dst) == |table.entries|
    ensures !CenterAgrees(s, Apply(table, AddRoute(NONE, o)), dst)
  {}

  /** Before any provision a home's table sends everything to its center, whose hook sends it back into the ring. */
  lemma UnprovisionedHomeDisagrees(s: Station, dst: U32)
    requires s.hook == HomeHook && !Contains(s.settings, dst)
    ensures !CenterAgrees(s, Init(s.orientation), dst)
  {}
}
