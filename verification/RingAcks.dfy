/** Acknowledgements of broadcasts carry no id: the task that waits is told whichever of its device's broadcasts comes
    back. When that goes wrong, exactly: a device broadcasts while a copy of its own is still in flight, and the ring
    is short enough for copies to come back. */
module RingAcks {
  import opened Bits
  import opened RingBroadcast
  import opened RingLink
  import opened RingPositions

  /** A broadcast of device `d` is still in flight. */
  predicate Overlaps(r: Ring, d: nat) {
    exists b :: 0 <= b < |r.casts| && InFlightFrom(r, d, b)
  }

  predicate InFlightFrom(r: Ring, d: nat, b: nat)
    requires b < |r.casts|
  {
    r.casts[b].alive && r.casts[b].everyone && r.casts[b].origin == d
  }

  predicate NoticesRight(r: Ring) {
    forall i :: 0 <= i < |r.notices| ==> r.notices[i].0 == r.notices[i].1
  }

  /** A device has at most one broadcast in flight, and waits for it or has given up; so far every notice was for the
      broadcast that was waited for. */
  ghost predicate WaitsOk(r: Ring) {
    && RingShape(r) && NoticesRight(r)
    && (forall b, d: nat :: 0 <= b < |r.casts| && InFlightFrom(r, d, b) ==>
          d < |r.ids| && (r.current[d] == For(b) || r.current[d].Idle?))
    && (forall a, b, d: nat :: 0 <= a < b < |r.casts| && InFlightFrom(r, d, a) ==> !InFlightFrom(r, d, b))
  }

  // ---------- where it goes right ----------

  lemma StartWaitsOk(ids: seq<U8>)
    requires RingShape(StartRing(ids))
    ensures WaitsOk(StartRing(ids))
  {}

  lemma HearKeepsWaits(crc: Checksum, r: Ring, d: nat)
    requires RingOk(crc, r) && WaitsOk(r) && RingEnabled(r, Hear(d))
    ensures WaitsOk(Heard(crc, r, d))
  {
    var s, b := Heard(crc, r, d), r.links[Before(d, |r.ids|)][0].num;
    HeardCopyIsAlive(crc, r, d);
    HeardKeepsCast(crc, r, d);
    assert forall a, e: nat :: 0 <= a < |s.casts| && InFlightFrom(s, e, a) ==> InFlightFrom(r, e, a);
    if r.casts[b].everyone && d == r.casts[b].origin { assert InFlightFrom(r, d, b); }
  }

  lemma OriginateKeepsWaits(crc: Checksum, r: Ring, d: nat, buffer: seq<U8>)
    requires RingOk(crc, r) && WaitsOk(r) && RingEnabled(r, Originate(d, buffer)) && !Overlaps(r, d)
    ensures WaitsOk(Originated(crc, r, d, buffer))
  {
    var s := Originated(crc, r, d, buffer);
    assert forall b, e: nat :: 0 <= b < |r.casts| ==> (InFlightFrom(s, e, b) <==> InFlightFrom(r, e, b));
    assert forall b :: 0 <= b < |r.casts| ==> !InFlightFrom(r, d, b);
  }

  /** Timeouts are allowed, and other traffic; a device only has to stay silent until its copy is back or gone. */
  lemma StepKeepsWaits(crc: Checksum, r: Ring, step: RingStep)
    requires RingOk(crc, r) && WaitsOk(r) && RingEnabled(r, step) && (step.Originate? ==> !Overlaps(r, step.device))
    ensures WaitsOk(NextRing(crc, r, step))
  {
    match step {
      case Originate(d, buffer) => OriginateKeepsWaits(crc, r, d, buffer);
      case Hear(d) => HearKeepsWaits(crc, r, d);
      case GiveUp(d) =>
        var s := r.(current := r.current[d := Idle]);
        assert forall b, e: nat :: 0 <= b < |s.casts| && InFlightFrom(s, e, b) ==> InFlightFrom(r, e, b);
      case OtherTraffic(d, p) =>
        var s := OtherSent(r, d, p);
        assert forall b, e: nat :: 0 <= b < |s.casts| && InFlightFrom(s, e, b) ==>
                 b < |r.casts| && InFlightFrom(r, e, b);
    }
  }

  /** Every broadcast of the run starts while none of its device's own is in flight. */
  predicate Patient(crc: Checksum, r: Ring, steps: seq<RingStep>)
    requires IsRingRun(crc, r, steps)
    decreases |steps|
  {
    steps == [] || (
      && (steps[0].Originate? ==> !Overlaps(r, steps[0].device))
      && Patient(crc, NextRing(crc, r, steps[0]), steps[1..]))
  }

  lemma {:induction false} PatientRunKeepsWaits(crc: Checksum, r: Ring, steps: seq<RingStep>)
    requires RingOk(crc, r) && WaitsOk(r) && IsRingRun(crc, r, steps) && Patient(crc, r, steps)
    ensures RingOk(crc, AfterRing(crc, r, steps)) && WaitsOk(AfterRing(crc, r, steps))
    decreases |steps|
  {
    if steps != [] {
      StepKeepsRing(crc, r, steps[0]);
      StepKeepsWaits(crc, r, steps[0]);
      PatientRunKeepsWaits(crc, NextRing(crc, r, steps[0]), steps[1..]);
    }
  }

  /** Over every run, timeouts included, in which no device broadcasts over its own copy in flight, a task is only
      ever told of the broadcast that it waits for. */
  lemma AcksAreNotMixedUp(crc: Checksum, ids: seq<U8>, steps: seq<RingStep>)
    requires RingShape(StartRing(ids)) && IsRingRun(crc, StartRing(ids), steps) && Patient(crc, StartRing(ids), steps)
    ensures NoticesRight(AfterRing(crc, StartRing(ids), steps))
  {
    StartRingIsOk(crc, ids);
    StartWaitsOk(ids);
    PatientRunKeepsWaits(crc, StartRing(ids), steps);
  }

  /** On a ring with more than TTL + 1 devices no copy comes back, so there are no notices at all. */
  lemma {:induction false} LongRingsNotifyNoOne(crc: Checksum, r: Ring, steps: seq<RingStep>)
    requires RingOk(crc, r) && |r.ids| > TTL + 1 && IsRingRun(crc, r, steps)
    ensures AfterRing(crc, r, steps).notices == r.notices
    decreases |steps|
  {
    if steps != [] {
      if steps[0].Hear? {
        var d := steps[0].device;
        HeardCopyIsAlive(crc, r, d);
        HeardKeepsCast(crc, r, d);
        var c := r.casts[r.links[Before(d, |r.ids|)][0].num];
        if c.everyone { BackAtOrigin(c.origin, c.hops, |r.ids|); }
      }
      StepKeepsRing(crc, r, steps[0]);
      LongRingsNotifyNoOne(crc, NextRing(crc, r, steps[0]), steps[1..]);
    }
  }

  // ---------- where it goes wrong ----------

  /** How many payloads are ahead of the copy of `b`. */
  function Ahead(q: seq<Payload>, b: nat): (k: nat)
    ensures k <= |q| && (k < |q| ==> IsCopy(q[k], b))
  {
    if q == [] || IsCopy(q[0], b) then 0 else 1 + Ahead(q[1..], b)
  }

  lemma {:induction false} AheadAppend(q: seq<Payload>, ps: seq<Payload>, b: nat)
    requires Copies(q, b) > 0
    ensures Ahead(q, b) < |q| && Ahead(q + ps, b) == Ahead(q, b)
  {
    assert (q + ps)[0] == q[0];
    if !IsCopy(q[0], b) {
      assert (q + ps)[1..] == q[1..] + ps;
      AheadAppend(q[1..], ps, b);
    }
  }

  lemma {:induction false} AheadOfNew(q: seq<Payload>, p: Payload)
    requires Copies(q, p.num) == 0
    ensures Ahead(q + [p], p.num) == |q|
  {
    if q != [] {
      assert (q + [p])[1..] == q[1..] + [p];
      AheadOfNew(q[1..], p);
    }
  }

  /** Device `d` waits for broadcast `next`, whose copy is still on its own link, while an older broadcast `b` of its
      own is in flight, ahead of that copy if on the same link. */
  predicate Chasing(r: Ring, d: nat, b: nat, next: nat) {
    && RingShape(r) && d < |r.ids| <= TTL + 1 && b < |r.casts| && next < |r.casts| && b != next
    && InFlightFrom(r, d, b) && r.casts[next].alive && r.casts[next].at == d && r.current[d] == For(next)
    && r.casts[b].at < |r.links|
    && (r.casts[b].at == d ==> Ahead(r.links[d], b) < Ahead(r.links[d], next))
  }

  /** The device that hears the older copy next. */
  function Hearer(r: Ring, d: nat, b: nat, next: nat): nat
    requires Chasing(r, d, b, next)
  {
    Around(r.casts[b].at, 1, |r.ids|)
  }

  lemma HearerHears(crc: Checksum, r: Ring, d: nat, b: nat, next: nat)
    requires RingOk(crc, r) && Chasing(r, d, b, next)
    ensures var h, e := Hearer(r, d, b, next), r.casts[b].at;
            && h < |r.ids| && Before(h, |r.ids|) == e && h != e && RingEnabled(r, Hear(h))
            && Copies(r.links[e], b) == 1 && Ahead(r.links[e], b) < |r.links[e]|
            && Copies(r.links[d], next) == 1 && (e != d ==> Copies(r.links[e], next) == 0)
  {
    var e := r.casts[b].at;
    AroundIs(e, 1, |r.ids|);
    assert CopiesOk(r, b) && CopiesOk(r, next);
    AheadAppend(r.links[e], [], b);
  }

  /** The device is told of something else than it waits for, or the older copy has come nearer and all is as before. */
  lemma OneHearing(crc: Checksum, r: Ring, d: nat, b: nat, next: nat)
    requires RingOk(crc, r) && Chasing(r, d, b, next) && RingEnabled(r, Hear(Hearer(r, d, b, next)))
    ensures var s, e := Heard(crc, r, Hearer(r, d, b, next)), r.casts[b].at;
            || !NoticesRight(s)
            || (&& Chasing(s, d, b, next) && s.ids == r.ids && CastOk(s.casts[b], |s.ids|)
                && (|| s.casts[b].hops == r.casts[b].hops + 1
                    || (&& s.casts[b] == r.casts[b] && Ahead(r.links[e], b) > 0
                        && Ahead(s.links[e], b) == Ahead(r.links[e], b) - 1)))
  {
    var h, e := Hearer(r, d, b, next), r.casts[b].at;
    HearerHears(crc, r, d, b, next);
    var s, p := Heard(crc, r, h), r.links[e][0];
    HeardCopyIsAlive(crc, r, h);
    HeardKeepsCast(crc, r, h);
    assert p.num != next by { HeadIsNotNext(crc, r, d, b, next); }
    var v := ReceivedVerdict(crc, r.ids[h], p);
    if h == d && v.acked {
      assert s.notices[|r.notices|] == (p.num, next);
    } else if p.num == b {
      CopyGoesOn(crc, r, d, b, next);
    } else {
      CopyComesNearer(crc, r, d, b, next);
    }
  }

  lemma HeadIsNotNext(crc: Checksum, r: Ring, d: nat, b: nat, next: nat)
    requires RingOk(crc, r) && Chasing(r, d, b, next)
    ensures r.links[r.casts[b].at] != [] && r.links[r.casts[b].at][0].num != next
  {
    HearerHears(crc, r, d, b, next);
    if r.casts[b].at != d { CopiesZero(r.links[r.casts[b].at], next, 0); }
  }

  /** The older copy is heard by a device that is not its origin and passes it on. */
  lemma CopyGoesOn(crc: Checksum, r: Ring, d: nat, b: nat, next: nat)
    requires RingOk(crc, r) && Chasing(r, d, b, next)
    requires var h := Hearer(r, d, b, next);
             && RingEnabled(r, Hear(h)) && r.links[r.casts[b].at] != [] && r.links[r.casts[b].at][0].num == b
             && !(h == d && ReceivedVerdict(crc, r.ids[h], r.links[r.casts[b].at][0]).acked)
    ensures var s := Heard(crc, r, Hearer(r, d, b, next));
            Chasing(s, d, b, next) && CastOk(s.casts[b], |s.ids|) && s.casts[b].hops == r.casts[b].hops + 1
  {
    var h, c := Hearer(r, d, b, next), r.casts[b];
    HearerHears(crc, r, d, b, next);
    HeardCopyIsAlive(crc, r, h);
    HeardKeepsCast(crc, r, h);
    BackAtOrigin(c.origin, c.hops, |r.ids|);
    assert h != d && c.hops < |r.ids|;
  }

  /** Some other payload ahead of the older copy is heard. */
  lemma CopyComesNearer(crc: Checksum, r: Ring, d: nat, b: nat, next: nat)
    requires RingOk(crc, r) && Chasing(r, d, b, next)
    requires var h, e := Hearer(r, d, b, next), r.casts[b].at;
             && RingEnabled(r, Hear(h)) && r.links[e] != [] && r.links[e][0].num != b && r.links[e][0].num != next
             && !(h == d && ReceivedVerdict(crc, r.ids[h], r.links[e][0]).acked)
    ensures var s, e := Heard(crc, r, Hearer(r, d, b, next)), r.casts[b].at;
            && Chasing(s, d, b, next) && s.casts[b] == r.casts[b] && Ahead(r.links[e], b) > 0
            && Ahead(s.links[e], b) == Ahead(r.links[e], b) - 1
  {
    var h, e := Hearer(r, d, b, next), r.casts[b].at;
    HearerHears(crc, r, d, b, next);
    HeardCopyIsAlive(crc, r, h);
    HeardKeepsCast(crc, r, h);
  }

  predicate OnlyHears(steps: seq<RingStep>) {
    forall i :: 0 <= i < |steps| ==> steps[i].Hear?
  }

  /** Hearing the links on the older copy's way, one after the other, ends in a wrong notice. */
  lemma {:induction false} Chase(crc: Checksum, r: Ring, d: nat, b: nat, next: nat) returns (steps: seq<RingStep>)
    requires RingOk(crc, r) && Chasing(r, d, b, next)
    ensures OnlyHears(steps) && IsRingRun(crc, r, steps) && !NoticesRight(AfterRing(crc, r, steps))
    decreases |r.ids| - r.casts[b].hops, Ahead(r.links[r.casts[b].at], b)
  {
    var h := Hearer(r, d, b, next);
    HearerHears(crc, r, d, b, next);
    var s := Heard(crc, r, h);
    OneHearing(crc, r, d, b, next);
    StepKeepsRing(crc, r, Hear(h));
    var rest := [];
    if NoticesRight(s) { rest := Chase(crc, s, d, b, next); }
    steps := [Hear(h)] + rest;
    RunCons(crc, r, Hear(h), rest);
  }

  lemma OverlapStartsChase(crc: Checksum, r: Ring, d: nat, buffer: seq<U8>, b: nat)
    requires RingOk(crc, r) && RingEnabled(r, Originate(d, buffer)) && |r.ids| <= TTL + 1
    requires b < |r.casts| && InFlightFrom(r, d, b)
    ensures Chasing(Originated(crc, r, d, buffer), d, b, |r.casts|)
  {
    var next := |r.casts|;
    var p := Broadcasting(crc, r.ids[d], r.counters[d], buffer, next);
    assert CopiesOk(r, b) && CastOk(r.casts[b], |r.ids|);
    if r.casts[b].at == d {
      NoFutureCopies(crc, r, r.links[d]);
      AheadOfNew(r.links[d], p);
      AheadAppend(r.links[d], [p], b);
    }
  }

  lemma {:induction false} HearingIsPatient(crc: Checksum, r: Ring, steps: seq<RingStep>)
    requires IsRingRun(crc, r, steps) && OnlyHears(steps)
    ensures Patient(crc, r, steps)
    decreases |steps|
  {
    if steps != [] { HearingIsPatient(crc, NextRing(crc, r, steps[0]), steps[1..]); }
  }

  /** The run tells some task of a broadcast that it does not wait for, although no device broadcasts over a copy of
      its own any more. */
  ghost predicate GoesWrong(crc: Checksum, r: Ring, steps: seq<RingStep>) {
    IsRingRun(crc, r, steps) && Patient(crc, r, steps) && !NoticesRight(AfterRing(crc, r, steps))
  }

  /** Exactly when a broadcast can be mistaken: with everything in order so far, starting one can lead to a wrong
      notice, without a further timeout or overlap, if and only if one of the device's own is still in flight and the
      ring has at most TTL + 1 devices. */
  lemma MistakenExactlyIfOverlapping(crc: Checksum, r: Ring, d: nat, buffer: seq<U8>)
    requires RingOk(crc, r) && WaitsOk(r) && RingEnabled(r, Originate(d, buffer))
    ensures (exists steps :: GoesWrong(crc, Originated(crc, r, d, buffer), steps))
            <==> Overlaps(r, d) && |r.ids| <= TTL + 1
  {
    var s := Originated(crc, r, d, buffer);
    OriginateKeeps(crc, r, d, buffer);
    if Overlaps(r, d) && |r.ids| <= TTL + 1 {
      var b :| 0 <= b < |r.casts| && InFlightFrom(r, d, b);
      OverlapStartsChase(crc, r, d, buffer, b);
      var steps := Chase(crc, s, d, b, |r.casts|);
      HearingIsPatient(crc, s, steps);
      assert GoesWrong(crc, s, steps);
    } else {
      forall steps | IsRingRun(crc, s, steps) && Patient(crc, s, steps) ensures NoticesRight(AfterRing(crc, s, steps)) {
        if Overlaps(r, d) {
          LongRingsNotifyNoOne(crc, s, steps);
        } else {
          OriginateKeepsWaits(crc, r, d, buffer);
          PatientRunKeepsWaits(crc, s, steps);
        }
      }
    }
  }

  /** Over every run in which no device has broadcast over its own copy so far, timeouts included. */
  lemma AcksGoWrongExactlyIfOverlapping(crc: Checksum, ids: seq<U8>, steps: seq<RingStep>, d: nat, buffer: seq<U8>)
    requires RingShape(StartRing(ids)) && IsRingRun(crc, StartRing(ids), steps) && Patient(crc, StartRing(ids), steps)
    requires RingEnabled(AfterRing(crc, StartRing(ids), steps), Originate(d, buffer))
    ensures var r := AfterRing(crc, StartRing(ids), steps);
            && NoticesRight(r)
            && ((exists rest :: GoesWrong(crc, Originated(crc, r, d, buffer), rest))
                <==> Overlaps(r, d) && |ids| <= TTL + 1)
  {
    StartRingIsOk(crc, ids);
    StartWaitsOk(ids);
    PatientRunKeepsWaits(crc, StartRing(ids), steps);
    RunKeepsRing(crc, StartRing(ids), steps);
    MistakenExactlyIfOverlapping(crc, AfterRing(crc, StartRing(ids), steps), d, buffer);
  }

  /** Two devices once device 0 has broadcast, once it has stopped waiting, and once it has broadcast again. */
  function FirstOut(crc: Checksum): Ring {
    Ring([0, 1], [[Broadcasting(crc, 0, 0, [], 0)], []], [1, 0], [For(0), Idle],
         [Cast(0, TTL, true, 0, 1, true, false, [])], [])
  }

  function FirstForgotten(crc: Checksum): Ring {
    FirstOut(crc).(current := [Idle, Idle])
  }

  function SecondOut(crc: Checksum): Ring {
    Ring([0, 1], [[Broadcasting(crc, 0, 0, [], 0), Broadcasting(crc, 0, 1, [], 1)], []], [2, 0], [For(1), Idle],
         [Cast(0, TTL, true, 0, 1, true, false, []), Cast(0, TTL, true, 0, 1, true, false, [])], [])
  }

  lemma FirstGoesOut(crc: Checksum)
    ensures RingEnabled(StartRing([0, 1]), Originate(0, []))
    ensures NextRing(crc, StartRing([0, 1]), Originate(0, [])) == FirstOut(crc)
  {
    assert StartRing([0, 1]) == Ring([0, 1], [[], []], [0, 0], [Idle, Idle], [], []);
    var r := NextRing(crc, StartRing([0, 1]), Originate(0, []));
    assert r.links[0] == [Broadcasting(crc, 0, 0, [], 0)] && r.links[1] == [];
    assert r.links == FirstOut(crc).links && r.counters == [1, 0] && r.current == [For(0), Idle];
  }

  lemma SecondGoesOut(crc: Checksum)
    ensures RingEnabled(FirstOut(crc), GiveUp(0)) && NextRing(crc, FirstOut(crc), GiveUp(0)) == FirstForgotten(crc)
    ensures RingEnabled(FirstForgotten(crc), Originate(0, []))
    ensures NextRing(crc, FirstForgotten(crc), Originate(0, [])) == SecondOut(crc)
  {
    assert NextRing(crc, FirstOut(crc), GiveUp(0)).current == [Idle, Idle];
    var r := NextRing(crc, FirstForgotten(crc), Originate(0, []));
    assert r.links[0] == SecondOut(crc).links[0] && r.links[1] == [];
    assert r.links == SecondOut(crc).links && r.counters == [2, 0] && r.current == [For(1), Idle];
  }

  lemma FirstComesBack(crc: Checksum)
    ensures RingEnabled(SecondOut(crc), Hear(1))
    ensures var r := NextRing(crc, SecondOut(crc), Hear(1));
            && RingEnabled(r, Hear(0))
            && var s := NextRing(crc, r, Hear(0)); s.notices == [(0, 1)] && |s.casts| == 2 && s.casts[1].processed == []
  {
    var r := NextRing(crc, SecondOut(crc), Hear(1));
    assert r.links[1][0].body.src == 0 && r.links[1][0].num == 0;
  }

  lemma HeardTwice(crc: Checksum)
    ensures IsRingRun(crc, SecondOut(crc), [Hear(1), Hear(0)])
    ensures var r := AfterRing(crc, SecondOut(crc), [Hear(1), Hear(0)]);
            r.notices == [(0, 1)] && |r.casts| == 2 && r.casts[1].processed == []
  {
    FirstComesBack(crc);
    RunCons(crc, NextRing(crc, SecondOut(crc), Hear(1)), Hear(0), []);
    RunCons(crc, SecondOut(crc), Hear(1), [Hear(0)]);
  }

  /** A timed-out wait can mix them up: the copy of the first broadcast comes back late and is taken for the
      acknowledgement of the second, which no other device has processed. */
  lemma LateAckIsTakenForTheNext(crc: Checksum)
    ensures var steps := [Originate(0, []), GiveUp(0), Originate(0, []), Hear(1), Hear(0)];
            && IsRingRun(crc, StartRing([0, 1]), steps)
            && var r := AfterRing(crc, StartRing([0, 1]), steps);
               r.notices == [(0, 1)] && |r.casts| == 2 && r.casts[1].processed == []
  {
    FirstGoesOut(crc);
    SecondGoesOut(crc);
    HeardTwice(crc);
    RunCons(crc, FirstForgotten(crc), Originate(0, []), [Hear(1), Hear(0)]);
    RunCons(crc, FirstOut(crc), GiveUp(0), [Originate(0, []), Hear(1), Hear(0)]);
    RunCons(crc, StartRing([0, 1]), Originate(0, []), [GiveUp(0), Originate(0, []), Hear(1), Hear(0)]);
  }

  lemma RunCons(crc: Checksum, r: Ring, step: RingStep, rest: seq<RingStep>)
    requires RingEnabled(r, step) && IsRingRun(crc, NextRing(crc, r, step), rest)
    ensures IsRingRun(crc, r, [step] + rest)
    ensures AfterRing(crc, r, [step] + rest) == AfterRing(crc, NextRing(crc, r, step), rest)
  {
    assert ([step] + rest)[1..] == rest;
  }
}
