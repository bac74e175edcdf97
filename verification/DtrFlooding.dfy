/** Distance-to-root flooding ends on every topology, from every start. As long as no increment wraps, an accepted
    update lowers the device's distance, where 0 counts as the largest; and that holds exactly so long. */
module DtrFlooding {
  import opened Bits
  import opened Flooding
  import opened Networks
  import opened Roles
  import RoutingTables

  predicate IsDtr(f: Flight) {
    if f.FromSibling? then f.sibl.UpdateDtr? else f.peer.PeerDtr?
  }

  function Carried(f: Flight): U32
    requires IsDtr(f)
  {
    if f.FromSibling? then f.sibl.dtr else f.peer.peerDtr
  }

  /** Only distance updates are on their way. Centers may be among the devices; they ignore them. */
  predicate DtrOnly(w: World) {
    Connects(w) && forall i :: 0 <= i < |w.flight| ==> IsDtr(w.flight[i])
  }

  function DtrOf(l: Local): U32 {
    if l.role.Forwarder? then l.role.fwd.dtr else 0
  }

  /** No distance ranks highest. */
  function Rank(dtr: U32): nat {
    if dtr == 0 then TWO32 else dtr
  }

  function RankOf(l: Local): nat {
    if l.role.Forwarder? then Rank(l.role.fwd.dtr) else 0
  }

  function Undecided(l: Local): nat {
    if l.role.Forwarder? && l.role.fwd.dtr == 0 then 1 else 0
  }

  function Zeros(w: World): nat {
    Sum(Undecided, w.devices)
  }

  /** No distance in the network, held or on its way, is above `top`. */
  predicate Below(w: World, top: int)
    requires DtrOnly(w)
  {
    && (forall d :: 0 <= d < |w.devices| ==> DtrOf(w.devices[d]) <= top)
    && (forall i :: 0 <= i < |w.flight| ==> Carried(w.flight[i]) <= top)
  }

  const MAX_DTR: nat := TWO32 - 1

  /** An update from a peer leaves the device with a distance that is not lower, though it was accepted, exactly when
      the peer announced the largest distance: the increment then wraps to 0, which every device takes for an
      improvement. */
  lemma WrapsExactlyAtTheMaximum(s: ForwarderState, orientation: U8, dtr: U32)
    ensures var (next, actions) := OnPeerDtr(s, orientation, dtr);
            actions != [] && Rank(next.dtr) >= Rank(s.dtr) <==> dtr == MAX_DTR
  {}

  /** So the bound below cannot be relaxed by one: here the largest distance is the maximum, no device is without a
      distance, and delivering the update takes a device from distance 1 to none. */
  lemma BoundIsTight()
    ensures var s := FORWARDER_START.(dtr := 1);
            var w := World([Local(Forwarder(s), UNSET)], [1], [[]], [[]], [FromPeer(0, PeerDtr(MAX_DTR))]);
            && DtrOnly(w) && Below(w, MAX_DTR) && Zeros(w) == 0
            && RankOf(Deliver(w, 0).devices[0]) > RankOf(w.devices[0])
  {
    var l := Local(Forwarder(FORWARDER_START.(dtr := 1)), UNSET);
    assert [l][1..] == [];
    assert Sum(Undecided, [l]) == Undecided(l);
    assert OnPeerDtr(l.role.fwd, 1, MAX_DTR).0.dtr == 0;
  }

  /** An accepted update lowers the rank, a refused one changes nothing; and a distance is at most one above what
      came. */
  lemma UpdateLowersRank(l: Local, orientation: U8, f: Flight)
    requires IsDtr(f) && (f.FromPeer? ==> Carried(f) < MAX_DTR)
    ensures var o :=
              if f.FromSibling? then HandleSibling(l, orientation, f.sibl) else HandlePeer(l, orientation, f.peer);
            && (o.local.role.Forwarder? <==> l.role.Forwarder?)
            && (RankOf(o.local) < RankOf(l) || (o.local == l && o.actions == []))
            && (o.local != l ==> DtrOf(o.local) != 0)
            && (DtrOf(o.local) <= Carried(f) + Undecided(l) || DtrOf(o.local) <= DtrOf(l))
  {}

  lemma PeerUpdateEmits(s: ForwarderState, orientation: U8, dtr: U32, siblings: seq<nat>, peers: seq<nat>)
    ensures var (next, actions) := OnPeerDtr(s, orientation, dtr);
            Emitted(siblings, peers, actions) == if actions == [] then [] else ToSiblings(siblings, UpdateDtr(next.dtr))
  {
    var (next, actions) := OnPeerDtr(s, orientation, dtr);
    var edit, tell := Edit(RoutingTables.AddRoute(NONE, orientation)), Tell(UpdateDtr(Plus(dtr, 1)));
    OneEmission(siblings, peers, tell);
    if actions != [] {
      assert actions == [edit] + [tell];
      EditsEmitNothing(siblings, peers, [edit], [tell]);
    }
  }

  lemma SiblingUpdateEmits(s: ForwarderState, dtr: U32, siblings: seq<nat>, peers: seq<nat>)
    ensures var (next, actions) := OnSiblingDtr(s, dtr);
            Emitted(siblings, peers, actions) == if actions == [] then [] else ToPeers(peers, PeerDtr(next.dtr))
  {
    OneEmission(siblings, peers, ToPeer(PeerDtr(dtr)));
  }

  /** What a device tells others is the distance it now has. */
  lemma EmittedCarriesDistance(w: World, f: Flight)
    requires Connects(w) && IsDtr(f) && f.to < |w.devices|
    ensures var o := Handled(w, f);
            var emitted := Emitted(w.siblings[f.to], w.peers[f.to], o.actions);
            && |emitted| <= |w.devices| && (o.actions == [] ==> emitted == [])
            && forall k :: 0 <= k < |emitted| ==>
                 IsDtr(emitted[k]) && Carried(emitted[k]) == DtrOf(o.local) && emitted[k].to < |w.devices|
  {
    var l, siblings, peers := w.devices[f.to], w.siblings[f.to], w.peers[f.to];
    if l.role.Forwarder? {
      if f.FromPeer? { PeerUpdateEmits(l.role.fwd, w.orientations[f.to], f.peer.peerDtr, siblings, peers); }
      else { SiblingUpdateEmits(l.role.fwd, f.sibl.dtr, siblings, peers); }
    }
  }

  // ---------- the flood ends ----------

  /** What an update can still lead to. One to a sibling is passed to its peer, one to a peer becomes one to every
      sibling that carries the next distance, and one that carries 0 is dropped. Along a chain the distance only rises
      until then. */
  function PeerWorth(dtr: U32, size: nat): nat
    decreases MAX_DTR - dtr
  {
    if dtr == 0 then 1
    else if dtr == MAX_DTR then 1 + Times(size, 1)
    else 1 + Times(size, 1 + PeerWorth(dtr + 1, size))
  }

  function SiblingWorth(dtr: U32, size: nat): nat {
    if dtr == 0 then 1 else 1 + PeerWorth(dtr, size)
  }

  function UpdateWorth(size: nat): Flight -> nat {
    (f: Flight) =>
      if !IsDtr(f) then 0 else if f.FromPeer? then PeerWorth(Carried(f), size) else SiblingWorth(Carried(f), size)
  }

  /** An update from a peer is told to all siblings one further away, or to no one. */
  lemma PeerUpdateSpreads(w: World, f: Flight)
    requires Connects(w) && IsDtr(f) && f.FromPeer? && f.to < |w.devices|
    ensures var emitted := Emitted(w.siblings[f.to], w.peers[f.to], Handled(w, f).actions);
            && |emitted| <= |w.devices| && (Carried(f) == 0 ==> emitted == [])
            && forall k :: 0 <= k < |emitted| ==>
                 emitted[k].FromSibling? && emitted[k].sibl == UpdateDtr(Plus(Carried(f), 1))
  {
    var l := w.devices[f.to];
    if l.role.Forwarder? {
      PeerUpdateEmits(l.role.fwd, w.orientations[f.to], Carried(f), w.siblings[f.to], w.peers[f.to]);
    }
  }

  /** An update from a sibling is passed to the peer as it is, or to no one. */
  lemma SiblingUpdateSpreads(w: World, f: Flight)
    requires Connects(w) && IsDtr(f) && f.FromSibling? && f.to < |w.devices|
    ensures var emitted := Emitted(w.siblings[f.to], w.peers[f.to], Handled(w, f).actions);
            && |emitted| <= 1 && (Carried(f) == 0 ==> emitted == [])
            && forall k :: 0 <= k < |emitted| ==> emitted[k].FromPeer? && emitted[k].peer == PeerDtr(Carried(f))
  {
    var l := w.devices[f.to];
    if l.role.Forwarder? { SiblingUpdateEmits(l.role.fwd, Carried(f), w.siblings[f.to], w.peers[f.to]); }
  }

  lemma ToldWorthLess(f: Flight, size: nat, emitted: seq<Flight>)
    requires IsDtr(f) && f.FromPeer? && |emitted| <= size && (Carried(f) == 0 ==> emitted == [])
    requires forall k :: 0 <= k < |emitted| ==>
               emitted[k].FromSibling? && emitted[k].sibl == UpdateDtr(Plus(Carried(f), 1))
    ensures Weight(UpdateWorth(size), emitted) < UpdateWorth(size)(f)
  {
    if emitted != [] {
      WeightAtMost(UpdateWorth(size), emitted, size,
                   if Carried(f) == MAX_DTR then 1 else 1 + PeerWorth(Carried(f) + 1, size));
    }
  }

  lemma PassedWorthLess(f: Flight, size: nat, emitted: seq<Flight>)
    requires IsDtr(f) && f.FromSibling? && |emitted| <= 1 && (Carried(f) == 0 ==> emitted == [])
    requires forall k :: 0 <= k < |emitted| ==> emitted[k].FromPeer? && emitted[k].peer == PeerDtr(Carried(f))
    ensures Weight(UpdateWorth(size), emitted) < UpdateWorth(size)(f)
  {
    if emitted != [] { assert emitted[1..] == []; }
  }

  lemma EmittedWorthLess(w: World, f: Flight)
    requires Connects(w) && IsDtr(f) && f.to < |w.devices|
    ensures var g := UpdateWorth(|w.devices|);
            Weight(g, Emitted(w.siblings[f.to], w.peers[f.to], Handled(w, f).actions)) < g(f)
  {
    var emitted := Emitted(w.siblings[f.to], w.peers[f.to], Handled(w, f).actions);
    if f.FromPeer? {
      PeerUpdateSpreads(w, f);
      ToldWorthLess(f, |w.devices|, emitted);
    } else {
      SiblingUpdateSpreads(w, f);
      PassedWorthLess(f, |w.devices|, emitted);
    }
  }

  lemma DeliverKeepsUpdates(w: World, i: nat)
    requires DtrOnly(w) && i < |w.flight|
    ensures DtrOnly(Deliver(w, i))
  {
    DeliverConnects(w, i);
    EmittedCarriesDistance(w, w.flight[i]);
  }

  /** Flooding ends on every topology, from every start and in every delivery order: a run is no longer than what the
      updates at its start are worth. Increments may wrap. */
  lemma {:induction false} DtrFloodEnds(w: World, choices: seq<nat>)
    requires DtrOnly(w) && IsFlood(w, choices)
    ensures |choices| <= Weight(UpdateWorth(|w.devices|), w.flight)
    ensures DtrOnly(AfterFlood(w, choices))
    decreases |choices|
  {
    if choices != [] {
      var f := w.flight[choices[0]];
      EmittedWorthLess(w, f);
      WeightAfter(UpdateWorth(|w.devices|), w.flight, choices[0],
                  Emitted(w.siblings[f.to], w.peers[f.to], Handled(w, f).actions));
      DeliverKeepsUpdates(w, choices[0]);
      DtrFloodEnds(Deliver(w, choices[0]), choices[1..]);
    }
  }

  // ---------- no increment wraps ----------

  /** While undecided devices remain, distances stay that much below the bound. */
  lemma DeliverKeepsBound(w: World, i: nat, top: int)
    requires DtrOnly(w) && Below(w, top - Zeros(w)) && top < MAX_DTR && i < |w.flight|
    ensures DtrOnly(Deliver(w, i)) && Below(Deliver(w, i), top - Zeros(Deliver(w, i)))
  {
    var f, r := w.flight[i], Deliver(w, i);
    var l, o := w.devices[f.to], Handled(w, f);
    DeliverConnects(w, i);
    UpdateLowersRank(l, w.orientations[f.to], f);
    EmittedCarriesDistance(w, f);
    SumUpdate(Undecided, w.devices, f.to, o.local);
    assert Zeros(r) == Zeros(w) + Undecided(o.local) - Undecided(l);
    assert DtrOf(o.local) <= top - Zeros(r);
  }

  /** Every device's rank has fallen or stayed. */
  predicate RanksFell(w: World, r: World) {
    |r.devices| == |w.devices| && forall d :: 0 <= d < |w.devices| ==> RankOf(r.devices[d]) <= RankOf(w.devices[d])
  }

  lemma {:induction false} BoundedRanksFall(w: World, choices: seq<nat>, top: int)
    requires DtrOnly(w) && Below(w, top - Zeros(w)) && top < MAX_DTR && IsFlood(w, choices)
    ensures DtrOnly(AfterFlood(w, choices)) && Below(AfterFlood(w, choices), top)
    ensures RanksFell(w, AfterFlood(w, choices))
    decreases |choices|
  {
    if choices != [] {
      var f := w.flight[choices[0]];
      UpdateLowersRank(w.devices[f.to], w.orientations[f.to], f);
      DeliverKeepsBound(w, choices[0], top);
      BoundedRanksFall(Deliver(w, choices[0]), choices[1..], top);
    }
  }

  /** Where the largest distance at the start plus the number of devices without one is below 2^32 - 1, no distance is
      ever above that sum, so no increment wraps and no device's distance ever rises. */
  lemma DistancesOnlyFall(w: World, choices: seq<nat>, largest: nat)
    requires DtrOnly(w) && Below(w, largest) && largest + Zeros(w) < MAX_DTR && IsFlood(w, choices)
    ensures DtrOnly(AfterFlood(w, choices)) && Below(AfterFlood(w, choices), largest + Zeros(w))
    ensures RanksFell(w, AfterFlood(w, choices))
  {
    BoundedRanksFall(w, choices, largest + Zeros(w));
  }
}
