/** Distance updates and gateway requests on their way at the same time: a request sets distances back to 0 and
    updates may then be accepted again, and still the flood ends. */
module MixedFlooding {
  import opened DtrFlooding
  import opened Flooding
  import opened GatewayFlooding
  import opened Roles

  predicate Mixed(w: World) {
    Connects(w) && forall i :: 0 <= i < |w.flight| ==> IsDtr(w.flight[i]) || IsRequest(w.flight[i])
  }

  function MixedWorth(size: nat): Flight -> nat {
    var g: Flight -> nat, h: Flight -> nat := UpdateWorth(size), Worth(size);
    (f: Flight) => if IsDtr(f) then g(f) else h(f)
  }

  function MixedMeasure(w: World): nat {
    Times(Sum(NotAsked, w.devices), |w.devices| + 1) + Weight(MixedWorth(|w.devices|), w.flight)
  }

  /** Updates leave alone whether a device asks. */
  lemma UpdateAsksNothing(w: World, f: Flight)
    requires Connects(w) && IsDtr(f) && f.to < |w.devices|
    ensures NotAsked(Handled(w, f).local) == NotAsked(w.devices[f.to])
  {}

  /** What is emitted is worth less than what was taken, or a device has turned to asking. */
  lemma EmittedMixedWorth(w: World, f: Flight)
    requires Connects(w) && (IsDtr(f) || IsRequest(f)) && f.to < |w.devices|
    ensures var o := Handled(w, f);
            var emitted := Emitted(w.siblings[f.to], w.peers[f.to], o.actions);
            var h, worth := MixedWorth(|w.devices|), Weight(MixedWorth(|w.devices|), emitted);
            && (forall k :: 0 <= k < |emitted| ==> IsDtr(emitted[k]) || IsRequest(emitted[k]))
            && (|| (worth < h(f) && NotAsked(o.local) <= NotAsked(w.devices[f.to]))
                || (worth <= h(f) + |w.devices| && NotAsked(o.local) < NotAsked(w.devices[f.to])))
  {
    var size, emitted := |w.devices|, Emitted(w.siblings[f.to], w.peers[f.to], Handled(w, f).actions);
    if IsDtr(f) {
      UpdateAsksNothing(w, f);
      EmittedCarriesDistance(w, f);
      EmittedWorthLess(w, f);
      WeightAgrees(MixedWorth(size), UpdateWorth(size), emitted);
    } else {
      RequestEffect(w, f);
      EmittedWorth(size, f, emitted);
      WeightAgrees(MixedWorth(size), Worth(size), emitted);
    }
  }

  lemma DeliverKeepsMixed(w: World, i: nat)
    requires Mixed(w) && i < |w.flight|
    ensures Mixed(Deliver(w, i))
  {
    DeliverConnects(w, i);
    EmittedMixedWorth(w, w.flight[i]);
  }

  lemma MixedLowers(w: World, r: World, i: nat, l: Local, emitted: seq<Flight>)
    requires i < |w.flight| && w.flight[i].to < |w.devices|
    requires r.devices == w.devices[w.flight[i].to := l] && r.flight == w.flight[..i] + w.flight[i + 1..] + emitted
    requires var h, worth := MixedWorth(|w.devices|), Weight(MixedWorth(|w.devices|), emitted);
             || (worth < h(w.flight[i]) && NotAsked(l) <= NotAsked(w.devices[w.flight[i].to]))
             || (worth <= h(w.flight[i]) + |w.devices| && NotAsked(l) < NotAsked(w.devices[w.flight[i].to]))
    ensures MixedMeasure(r) < MixedMeasure(w)
  {
    DeliveryLowers(NotAsked, MixedWorth(|w.devices|), w.devices, w.flight, i, l, emitted, |w.devices| + 1);
  }

  lemma DeliverLowersMixed(w: World, i: nat)
    requires Mixed(w) && i < |w.flight|
    ensures MixedMeasure(Deliver(w, i)) < MixedMeasure(w)
  {
    var f, o := w.flight[i], Handled(w, w.flight[i]);
    var emitted := Emitted(w.siblings[f.to], w.peers[f.to], o.actions);
    EmittedMixedWorth(w, f);
    DeliverIs(w, i, o.local, emitted);
    MixedLowers(w, Deliver(w, i), i, o.local, emitted);
  }

  /** Any flood of distance updates and gateway requests together ends, on every topology and in every delivery
      order. */
  lemma {:induction false} MixedFloodEnds(w: World, choices: seq<nat>)
    requires Mixed(w) && IsFlood(w, choices)
    ensures |choices| <= MixedMeasure(w)
    ensures Mixed(AfterFlood(w, choices))
    decreases |choices|
  {
    if choices != [] {
      DeliverLowersMixed(w, choices[0]);
      DeliverKeepsMixed(w, choices[0]);
      MixedFloodEnds(Deliver(w, choices[0]), choices[1..]);
    }
  }
}
