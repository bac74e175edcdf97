/** Forwarders of many nodes exchanging sibling and peer events over any topology, in any delivery order. Floods of one
    kind of event run on this network; DtrFlooding.dfy and GatewayFlooding.dfy prove that they end. */
module Flooding {
  import opened Bits
  import opened Roles

  /** An event on its way to device `to`. */
  datatype Flight =
    | FromSibling(to: nat, sibl: SiblEvent)
    | FromPeer(to: nat, peer: PeerEvent)

  /** `siblings[d]` are the other boards of d's node, `peers[d]` the board at the far end of d's wireless link. */
  datatype World = World(
    devices: seq<Local>,
    orientations: seq<U8>,
    siblings: seq<seq<nat>>,
    peers: seq<seq<nat>>,
    flight: seq<Flight>)

  predicate Connects(w: World) {
    && |w.orientations| == |w.siblings| == |w.peers| == |w.devices|
    && (forall d :: 0 <= d < |w.devices| ==> |w.siblings[d]| <= |w.devices| && |w.peers[d]| <= 1)
    && (forall d, k :: 0 <= d < |w.devices| && 0 <= k < |w.siblings[d]| ==> w.siblings[d][k] < |w.devices|)
    && (forall d, k :: 0 <= d < |w.devices| && 0 <= k < |w.peers[d]| ==> w.peers[d][k] < |w.devices|)
    && (forall i :: 0 <= i < |w.flight| ==> w.flight[i].to < |w.devices|)
  }

  function ToSiblings(to: seq<nat>, ev: SiblEvent): (r: seq<Flight>)
    ensures |r| == |to| && forall k :: 0 <= k < |r| ==> r[k] == FromSibling(to[k], ev)
  {
    seq(|to|, k requires 0 <= k < |to| => FromSibling(to[k], ev))
  }

  function ToPeers(to: seq<nat>, ev: PeerEvent): (r: seq<Flight>)
    ensures |r| == |to| && forall k :: 0 <= k < |r| ==> r[k] == FromPeer(to[k], ev)
  {
    seq(|to|, k requires 0 <= k < |to| => FromPeer(to[k], ev))
  }

  /** What a handler's actions put on their way. */
  function Emitted(siblings: seq<nat>, peers: seq<nat>, actions: seq<Action>): seq<Flight> {
    if actions == [] then [] else
      (match actions[0]
       case Tell(ev) => ToSiblings(siblings, ev)
       case ToPeer(ev) => ToPeers(peers, ev)
       case _ => []) + Emitted(siblings, peers, actions[1..])
  }

  function Handled(w: World, f: Flight): Outcome
    requires Connects(w) && f.to < |w.devices|
  {
    match f
    case FromSibling(to, ev) => HandleSibling(w.devices[to], w.orientations[to], ev)
    case FromPeer(to, ev) => HandlePeer(w.devices[to], w.orientations[to], ev)
  }

  /** The i-th event on its way is delivered. */
  function Deliver(w: World, i: nat): World
    requires Connects(w) && i < |w.flight|
  {
    var f := w.flight[i];
    var o := Handled(w, f);
    w.(devices := w.devices[f.to := o.local],
       flight := w.flight[..i] + w.flight[i + 1..] + Emitted(w.siblings[f.to], w.peers[f.to], o.actions))
  }

  /** Deliveries that can be made from `w` one after the other. */
  predicate IsFlood(w: World, choices: seq<nat>)
    decreases |choices|
  {
    choices == [] || (Connects(w) && choices[0] < |w.flight| && IsFlood(Deliver(w, choices[0]), choices[1..]))
  }

  function AfterFlood(w: World, choices: seq<nat>): World
    requires IsFlood(w, choices)
    decreases |choices|
  {
    if choices == [] then w else AfterFlood(Deliver(w, choices[0]), choices[1..])
  }

  /** A delivery changes one device, and what it emits replaces what it took. */
  lemma DeliverIs(w: World, i: nat, l: Local, emitted: seq<Flight>)
    requires Connects(w) && i < |w.flight| && l == Handled(w, w.flight[i]).local
    requires var to := w.flight[i].to; emitted == Emitted(w.siblings[to], w.peers[to], Handled(w, w.flight[i]).actions)
    ensures Deliver(w, i).devices == w.devices[w.flight[i].to := l]
    ensures Deliver(w, i).flight == w.flight[..i] + w.flight[i + 1..] + emitted
  {}

  // ---------- what is emitted ----------

  lemma {:induction false} EmittedIsAddressed(siblings: seq<nat>, peers: seq<nat>, actions: seq<Action>, size: nat)
    requires forall k :: 0 <= k < |siblings| ==> siblings[k] < size
    requires forall k :: 0 <= k < |peers| ==> peers[k] < size
    ensures forall k :: 0 <= k < |Emitted(siblings, peers, actions)| ==> Emitted(siblings, peers, actions)[k].to < size
  {
    if actions != [] { EmittedIsAddressed(siblings, peers, actions[1..], size); }
  }

  lemma DeliverConnects(w: World, i: nat)
    requires Connects(w) && i < |w.flight|
    ensures Connects(Deliver(w, i))
  {
    var to := w.flight[i].to;
    EmittedIsAddressed(w.siblings[to], w.peers[to], Handled(w, w.flight[i]).actions, |w.devices|);
  }

  /** Edits emit nothing. */
  lemma {:induction false} EditsEmitNothing(siblings: seq<nat>, peers: seq<nat>, edits: seq<Action>, rest: seq<Action>)
    requires forall k :: 0 <= k < |edits| ==> edits[k].Edit?
    ensures Emitted(siblings, peers, edits + rest) == Emitted(siblings, peers, rest)
  {
    if edits == [] {
      assert edits + rest == rest;
    } else {
      assert (edits + rest)[1..] == edits[1..] + rest;
      EditsEmitNothing(siblings, peers, edits[1..], rest);
    }
  }

  lemma OneEmission(siblings: seq<nat>, peers: seq<nat>, action: Action)
    ensures action.Tell? ==> Emitted(siblings, peers, [action]) == ToSiblings(siblings, action.event)
    ensures action.ToPeer? ==> Emitted(siblings, peers, [action]) == ToPeers(peers, action.message)
    ensures Emitted(siblings, peers, []) == []
  {
    assert [action][1..] == [];
  }

  // ---------- sums ----------

  /** A sum over the devices of a per-device measure. */
  function Sum(f: Local -> nat, devices: seq<Local>): nat {
    if devices == [] then 0 else f(devices[0]) + Sum(f, devices[1..])
  }

  lemma {:induction false} SumUpdate(f: Local -> nat, devices: seq<Local>, d: nat, l: Local)
    requires d < |devices|
    ensures Sum(f, devices[d := l]) + f(devices[d]) == Sum(f, devices) + f(l)
  {
    if d > 0 {
      assert devices[d := l][1..] == devices[1..][d - 1 := l];
      SumUpdate(f, devices[1..], d - 1, l);
    } else {
      assert devices[0 := l][1..] == devices[1..];
    }
  }

  function Weight(g: Flight -> nat, flight: seq<Flight>): nat {
    if flight == [] then 0 else g(flight[0]) + Weight(g, flight[1..])
  }

  lemma {:induction false} WeightAppend(g: Flight -> nat, a: seq<Flight>, b: seq<Flight>)
    ensures Weight(g, a + b) == Weight(g, a) + Weight(g, b)
  {
    if a == [] {
      assert a + b == b;
    } else {
      assert (a + b)[1..] == a[1..] + b;
      WeightAppend(g, a[1..], b);
    }
  }

  lemma WeightWithout(g: Flight -> nat, before: seq<Flight>, f: Flight, after: seq<Flight>, emitted: seq<Flight>)
    ensures Weight(g, before + after + emitted) + g(f) == Weight(g, before + ([f] + after)) + Weight(g, emitted)
  {
    WeightAppend(g, before + after, emitted);
    WeightAppend(g, before, after);
    WeightAppend(g, before, [f] + after);
    assert ([f] + after)[1..] == after;
  }

  lemma AroundOne(flight: seq<Flight>, i: nat)
    requires i < |flight|
    ensures flight == flight[..i] + ([flight[i]] + flight[i + 1..])
  {}

  lemma WeightAfter(g: Flight -> nat, flight: seq<Flight>, i: nat, emitted: seq<Flight>)
    requires i < |flight|
    ensures Weight(g, flight[..i] + flight[i + 1..] + emitted) + g(flight[i]) == Weight(g, flight) + Weight(g, emitted)
  {
    WeightWithout(g, flight[..i], flight[i], flight[i + 1..], emitted);
    AroundOne(flight, i);
  }

  lemma {:induction false} WeightOfAll(g: Flight -> nat, flight: seq<Flight>, each: nat)
    requires forall k :: 0 <= k < |flight| ==> g(flight[k]) == each
    ensures Weight(g, flight) == each * |flight|
  {
    if flight != [] { WeightOfAll(g, flight[1..], each); }
  }

  lemma {:induction false} WeightAgrees(g: Flight -> nat, h: Flight -> nat, flight: seq<Flight>)
    requires forall k :: 0 <= k < |flight| ==> g(flight[k]) == h(flight[k])
    ensures Weight(g, flight) == Weight(h, flight)
  {
    if flight != [] { WeightAgrees(g, h, flight[1..]); }
  }

  // ---------- products ----------

  function Times(a: nat, k: nat): nat {
    if a == 0 then 0 else k + Times(a - 1, k)
  }

  lemma {:induction false} TimesMonotone(a: nat, b: nat, k: nat)
    requires a <= b
    ensures Times(a, k) + (if a < b then k else 0) <= Times(b, k)
  {
    if a < b { TimesMonotone(a, b - 1, k); }
  }

  /** A delivery lowers the measure that weighs a count over the devices against what is on its way, if what it emits
      weighs less than what it took, or the count falls and the gain is below `k`. */
  lemma DeliveryLowers(count: Local -> nat, g: Flight -> nat, devices: seq<Local>, flight: seq<Flight>, i: nat,
      l: Local, emitted: seq<Flight>, k: nat)
    requires i < |flight| && flight[i].to < |devices| && count(l) <= count(devices[flight[i].to])
    requires || Weight(g, emitted) < g(flight[i])
             || (count(l) < count(devices[flight[i].to]) && Weight(g, emitted) < g(flight[i]) + k)
    ensures Times(Sum(count, devices[flight[i].to := l]), k) + Weight(g, flight[..i] + flight[i + 1..] + emitted)
            < Times(Sum(count, devices), k) + Weight(g, flight)
  {
    SumUpdate(count, devices, flight[i].to, l);
    WeightAfter(g, flight, i, emitted);
    TimesMonotone(Sum(count, devices[flight[i].to := l]), Sum(count, devices), k);
  }

  lemma {:induction false} WeightAtMost(g: Flight -> nat, flight: seq<Flight>, size: nat, each: nat)
    requires |flight| <= size && forall k :: 0 <= k < |flight| ==> g(flight[k]) <= each
    ensures Weight(g, flight) <= Times(size, each)
  {
    if flight != [] { WeightAtMost(g, flight[1..], size - 1, each); }
  }
}
