/** Gateway-request flooding ends on every topology, although a forwarder next to the root repeats a request to its
    siblings every time; and the list of networks a request carries grows by the forwarding node's network and stays
    packed. */
module GatewayFlooding {
  import opened Bits
  import opened Flooding
  import opened Roles

  predicate IsRequest(f: Flight) {
    if f.FromSibling? then f.sibl.SendGatewayRequest? else f.peer.GatewayRequest?
  }

  function PathOf(f: Flight): PathList
    requires IsRequest(f)
  {
    if f.FromSibling? then f.sibl.path else f.peer.hags
  }

  predicate NamedNode(l: Local) {
    l.role.Forwarder? ==> l.role.fwd.nodeNetwork.addr != 0
  }

  /** Only gateway requests are on their way. */
  predicate RequestsOnly(w: World) {
    Connects(w) && forall i :: 0 <= i < |w.flight| ==> IsRequest(w.flight[i])
  }

  /** Every node has a network, and every list on its way is packed. */
  predicate ListsPacked(w: World) {
    (forall d :: 0 <= d < |w.devices| ==> NamedNode(w.devices[d])) && PackedRequests(w.flight)
  }

  function NotAsked(l: Local): nat {
    if l.role.Forwarder? && l.role.fwd.global != OnGatewayRequest then 1 else 0
  }

  /** A request from a peer may become one to every sibling, a request from a sibling one to the peer. */
  function Worth(size: nat): Flight -> nat {
    (f: Flight) => if f.FromPeer? then size + 1 else 1
  }

  function Measure(w: World): nat {
    Times(Sum(NotAsked, w.devices), |w.devices| + 1) + Weight(Worth(|w.devices|), w.flight)
  }

  /** What one handler does to the flood: it either turns a device to asking, or emits less than it took. */
  lemma RequestEffect(w: World, f: Flight)
    requires Connects(w) && IsRequest(f) && f.to < |w.devices|
    ensures var o := Handled(w, f);
            var emitted := Emitted(w.siblings[f.to], w.peers[f.to], o.actions);
            && NotAsked(o.local) <= NotAsked(w.devices[f.to])
            && (forall k :: 0 <= k < |emitted| ==> IsRequest(emitted[k]))
            && (f.FromPeer? ==> |emitted| <= |w.devices| && forall k :: 0 <= k < |emitted| ==> emitted[k].FromSibling?)
            && (f.FromSibling? ==> |emitted| <= 1 && forall k :: 0 <= k < |emitted| ==> emitted[k].FromPeer?)
            && (f.FromSibling? && emitted != [] ==> NotAsked(o.local) < NotAsked(w.devices[f.to]))
  {
    var l, o := w.devices[f.to], Handled(w, f);
    var siblings, peers := w.siblings[f.to], w.peers[f.to];
    OneEmission(siblings, peers, Refresh);
    if l.role.Forwarder? {
      if f.FromPeer? {
        PeerRequestEmits(l.role.fwd, w.orientations[f.to], f.peer.hags, siblings, peers);
      } else if o.actions != [] {
        OneEmission(siblings, peers, o.actions[0]);
      }
    }
  }

  /** A request from a peer reaches the siblings unchanged, or no one. */
  lemma PeerRequestEmits(s: ForwarderState, orientation: U8, path: PathList, siblings: seq<nat>, peers: seq<nat>)
    ensures var emitted := Emitted(siblings, peers, OnGatewayRequestFromPeer(s, orientation, path).1);
            emitted == [] || emitted == ToSiblings(siblings, SendGatewayRequest(path))
  {
    var n := if path[0].addr == 0 then 0 else PATH_CAPACITY;
    var edits := HagEdits(path, orientation, n);
    var tell := Tell(SendGatewayRequest(path));
    HagEditsEditOnly(path, orientation, n);
    EditsEmitNothing(siblings, peers, edits, [tell]);
    EditsEmitNothing(siblings, peers, edits, []);
    OneEmission(siblings, peers, tell);
    assert edits + [] == edits;
  }

  /** What is emitted is worth less than what was taken, or a device has turned to asking. */
  lemma EmittedWorth(size: nat, f: Flight, emitted: seq<Flight>)
    requires f.FromPeer? ==> |emitted| <= size && forall k :: 0 <= k < |emitted| ==> emitted[k].FromSibling?
    requires f.FromSibling? ==> |emitted| <= 1 && forall k :: 0 <= k < |emitted| ==> emitted[k].FromPeer?
    ensures f.FromPeer? || emitted == [] ==> Weight(Worth(size), emitted) < Worth(size)(f)
    ensures f.FromSibling? ==> Weight(Worth(size), emitted) <= size + 1
  {
    if f.FromPeer? { WeightOfAll(Worth(size), emitted, 1); }
    else if emitted != [] { assert emitted[1..] == []; }
  }

  lemma RequestLowers(w: World, r: World, i: nat, l: Local, emitted: seq<Flight>)
    requires i < |w.flight| && w.flight[i].to < |w.devices|
    requires r.devices == w.devices[w.flight[i].to := l] && r.flight == w.flight[..i] + w.flight[i + 1..] + emitted
    requires NotAsked(l) <= NotAsked(w.devices[w.flight[i].to])
    requires var f, worth := w.flight[i], Weight(Worth(|w.devices|), emitted);
             && (f.FromPeer? || emitted == [] ==> worth < Worth(|w.devices|)(f))
             && (f.FromSibling? ==> worth <= |w.devices| + 1)
             && (f.FromSibling? && emitted != [] ==> NotAsked(l) < NotAsked(w.devices[f.to]))
    ensures Measure(r) < Measure(w)
  {
    DeliveryLowers(NotAsked, Worth(|w.devices|), w.devices, w.flight, i, l, emitted, |w.devices| + 1);
  }

  lemma DeliverLowersMeasure(w: World, i: nat)
    requires RequestsOnly(w) && i < |w.flight|
    ensures Measure(Deliver(w, i)) < Measure(w)
  {
    var f, o := w.flight[i], Handled(w, w.flight[i]);
    var emitted := Emitted(w.siblings[f.to], w.peers[f.to], o.actions);
    RequestEffect(w, f);
    EmittedWorth(|w.devices|, f, emitted);
    DeliverIs(w, i, o.local, emitted);
    RequestLowers(w, Deliver(w, i), i, o.local, emitted);
  }

  predicate PackedRequests(flight: seq<Flight>) {
    forall k :: 0 <= k < |flight| ==> IsRequest(flight[k]) && Packed(PathOf(flight[k]))
  }

  /** What device `l` sends on for `f`: the list it was given, or that list with its node's network added. */
  predicate SendsOn(l: Local, f: Flight, sent: Flight) {
    && IsRequest(f) && IsRequest(sent)
    && (f.FromPeer? ==> PathOf(sent) == PathOf(f))
    && (f.FromSibling? ==> l.role.Forwarder? && Used(PathOf(sent)) == Used(PathOf(f)) + [l.role.fwd.nodeNetwork])
  }

  /** What a handler sends on is the list it was given, or that list with its node's network in the first free slot. */
  lemma EmittedPathsArePacked(w: World, f: Flight)
    requires Connects(w) && ListsPacked(w) && IsRequest(f) && Packed(PathOf(f)) && f.to < |w.devices|
    ensures var o := Handled(w, f);
            var emitted := Emitted(w.siblings[f.to], w.peers[f.to], o.actions);
            && NamedNode(o.local) && PackedRequests(emitted)
            && forall k :: 0 <= k < |emitted| ==> SendsOn(w.devices[f.to], f, emitted[k])
  {
    var l, o := w.devices[f.to], Handled(w, f);
    var siblings, peers := w.siblings[f.to], w.peers[f.to];
    OneEmission(siblings, peers, Refresh);
    if l.role.Forwarder? {
      if f.FromPeer? {
        PeerRequestEmits(l.role.fwd, w.orientations[f.to], f.peer.hags, siblings, peers);
      } else if o.actions != [] {
        ForwardedPathGrows(l.role.fwd, f.sibl.path);
        OneEmission(siblings, peers, o.actions[0]);
      }
    }
  }

  lemma RequestsAfter(flight: seq<Flight>, i: nat, emitted: seq<Flight>)
    requires i < |flight| && PackedRequests(flight) && PackedRequests(emitted)
    ensures PackedRequests(flight[..i] + flight[i + 1..] + emitted)
  {}

  lemma DeliverKeepsPacked(w: World, i: nat)
    requires Connects(w) && ListsPacked(w) && i < |w.flight|
    ensures ListsPacked(Deliver(w, i))
  {
    var f := w.flight[i];
    EmittedPathsArePacked(w, f);
    RequestsAfter(w.flight, i, Emitted(w.siblings[f.to], w.peers[f.to], Handled(w, f).actions));
  }

  lemma DeliverKeepsRequests(w: World, i: nat)
    requires RequestsOnly(w) && i < |w.flight|
    ensures RequestsOnly(Deliver(w, i))
  {
    DeliverConnects(w, i);
    RequestEffect(w, w.flight[i]);
  }

  /** Gateway-request flooding ends on every topology and in every delivery order. */
  lemma {:induction false} GatewayFloodEnds(w: World, choices: seq<nat>)
    requires RequestsOnly(w) && IsFlood(w, choices)
    ensures |choices| <= Measure(w)
    ensures RequestsOnly(AfterFlood(w, choices))
    decreases |choices|
  {
    if choices != [] {
      DeliverLowersMeasure(w, choices[0]);
      DeliverKeepsRequests(w, choices[0]);
      GatewayFloodEnds(Deliver(w, choices[0]), choices[1..]);
    }
  }

  /** Where all nodes have a network, every list stays packed throughout. */
  lemma {:induction false} ListsStayPacked(w: World, choices: seq<nat>)
    requires RequestsOnly(w) && ListsPacked(w) && IsFlood(w, choices)
    ensures ListsPacked(AfterFlood(w, choices))
    decreases |choices|
  {
    if choices != [] {
      DeliverKeepsRequests(w, choices[0]);
      DeliverKeepsPacked(w, choices[0]);
      ListsStayPacked(Deliver(w, choices[0]), choices[1..]);
    }
  }
}
