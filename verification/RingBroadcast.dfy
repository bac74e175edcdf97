/** A broadcast goes round the ring hop by hop: every device before the copy has processed it once, in ring order, and
    the origin is acknowledged only after all the others. */
module RingBroadcast {
  import opened Bits
  import opened RingLink
  import opened RingPositions

  // ---------- the ring ----------

  /** History of one payload: where it started and with which TTL, whether it is a broadcast, the device whose
      outgoing link holds its copy, the transmissions so far, and so on. */
  datatype Cast = Cast(
    origin: nat, ttl: U8, everyone: bool, at: nat, hops: nat, alive: bool, acked: bool, processed: seq<nat>)

  /** Device d transmits to device d + 1, the last one to device 0; links[d] is what d has transmitted and its neighbour
      has not taken yet. current[d] is the broadcast that d's task waits for, if any. */
  datatype Ring = Ring(
    ids: seq<U8>,
    links: seq<seq<Payload>>,
    counters: seq<U8>,
    current: seq<Waiting>,
    casts: seq<Cast>,                  // history
    notices: seq<(nat, nat)>)          // history: which broadcast came back, and which one was taken to be acknowledged

  datatype Waiting = Idle | For(num: nat)

  predicate RingShape(r: Ring) {
    && 2 <= |r.ids| && |r.links| == |r.counters| == |r.current| == |r.ids|
    && forall a, b :: 0 <= a < b < |r.ids| ==> r.ids[a] != r.ids[b]
  }

  function Before(d: nat, size: nat): nat
    requires d < size
  {
    if d == 0 then size - 1 else d - 1
  }

  datatype RingStep =
    | Originate(device: nat, buffer: seq<U8>)   // broadcast_to_siblings, up to the wait
    | Hear(device: nat)                         // the payload at the head of the incoming link is received and handled
    | GiveUp(device: nat)                       // the wait for the acknowledgement times out
    | OtherTraffic(device: nat, payload: Payload)   // anything but a broadcast, with any TTL and any checksum

  predicate RingEnabled(r: Ring, step: RingStep) {
    && RingShape(r) && step.device < |r.ids|
    && match step
       case Originate(d, buffer) => r.current[d].Idle? && |buffer| < TWO16
       case Hear(d) => r.links[Before(d, |r.ids|)] != []
       case GiveUp(d) => r.current[d].For?
       case OtherTraffic(d, p) => p.body.dst != ID_ALL
  }

  function Put(r: Ring, d: nat, ps: seq<Payload>): Ring
    requires d < |r.links|
  {
    r.(links := r.links[d := r.links[d] + ps])
  }

  /** s_id_counter is one byte wide. */
  function NextId(id: U8): U8 {
    if id == 0xFF then 0 else id + 1
  }

  function Originated(crc: Checksum, r: Ring, d: nat, buffer: seq<U8>): Ring
    requires RingEnabled(r, Originate(d, buffer))
  {
    Put(r, d, [Broadcasting(crc, r.ids[d], r.counters[d], buffer, |r.casts|)])
      .(counters := r.counters[d := NextId(r.counters[d])],
        current := r.current[d := For(|r.casts|)],
        casts := r.casts + [Cast(d, TTL, true, d, 1, true, false, [])])
  }

  function OtherSent(r: Ring, d: nat, p: Payload): Ring
    requires RingEnabled(r, OtherTraffic(d, p))
  {
    Put(r, d, [p.(num := |r.casts|)])
      .(casts := r.casts + [Cast(d, p.body.ttl, false, d, 1, true, false, [])])
  }

  /** How device `d`'s verdict changes the history of the payload. */
  function Passed(c: Cast, d: nat, v: Verdict): Cast {
    c.(at := if v.on == [] then c.at else d, hops := c.hops + |v.on|, alive := v.on != [], acked := v.acked,
       processed := if v.up then c.processed + [d] else c.processed)
  }

  function Popped(r: Ring, d: nat): Ring
    requires d < |r.links| && r.links[d] != []
  {
    r.(links := r.links[d := r.links[d][1..]])
  }

  function Heard(crc: Checksum, r: Ring, d: nat): Ring
    requires RingEnabled(r, Hear(d))
  {
    var from := Before(d, |r.ids|);
    var p := r.links[from][0];
    var v := ReceivedVerdict(crc, r.ids[d], p);
    var notified := v.acked && r.current[d].For?;
    Put(Popped(r, from), d, v.on)
      .(casts := if p.num < |r.casts| then r.casts[p.num := Passed(r.casts[p.num], d, v)] else r.casts,
        current := if notified then r.current[d := Idle] else r.current,
        notices := if notified then r.notices + [(p.num, r.current[d].num)] else r.notices)
  }

  function NextRing(crc: Checksum, r: Ring, step: RingStep): Ring
    requires RingEnabled(r, step)
  {
    match step
    case Originate(d, buffer) => Originated(crc, r, d, buffer)
    case Hear(d) => Heard(crc, r, d)
    case GiveUp(d) => r.(current := r.current[d := Idle])
    case OtherTraffic(d, p) => OtherSent(r, d, p)
  }

  // ---------- what every step keeps ----------

  predicate IsCopy(p: Payload, b: nat) {
    p.num == b
  }

  function Copies(q: seq<Payload>, b: nat): nat {
    if q == [] then 0 else (if IsCopy(q[0], b) then 1 else 0) + Copies(q[1..], b)
  }

  predicate CastOk(c: Cast, size: nat) {
    && c.origin < size && c.at < size && 1 <= c.hops <= c.ttl + 1
    && (!c.everyone ==> !c.acked)
    && (c.everyone ==>
          && c.ttl == TTL && c.hops <= size && c.at == Around(c.origin, c.hops - 1, size)
          && if c.alive then !c.acked && c.processed == Visited(c.origin, c.hops - 1, size)
             else if c.acked then c.hops == size && c.processed == Visited(c.origin, size - 1, size)
             else c.hops == TTL + 1 < size && c.processed == Visited(c.origin, TTL + 1, size))
  }

  /** What a copy of a broadcast carries. */
  predicate Genuine(crc: Checksum, p: Payload, src: U8) {
    p.body.kind == INTERNAL && p.crc32 == crc(p.body) && p.body.src == src
  }

  /** A copy has as many hops left as its TTL says; a broadcast's carries its origin and a fresh checksum. */
  predicate CopyOk(crc: Checksum, r: Ring, p: Payload) {
    && p.num < |r.casts|
    && var c := r.casts[p.num];
    && c.origin < |r.ids| && p.body.ttl + c.hops == c.ttl + 1
    && (p.body.dst == ID_ALL <==> c.everyone) && (c.everyone ==> Genuine(crc, p, r.ids[c.origin]))
  }

  predicate LinkOk(crc: Checksum, r: Ring, q: seq<Payload>) {
    forall k :: 0 <= k < |q| ==> CopyOk(crc, r, q[k])
  }

  /** A living payload has exactly one copy, where its history says; a finished one has none. */
  predicate CopiesOk(r: Ring, b: nat)
    requires b < |r.casts|
  {
    var c := r.casts[b];
    forall d :: 0 <= d < |r.links| ==> Copies(r.links[d], b) == if c.alive && c.at == d then 1 else 0
  }

  ghost predicate RingOk(crc: Checksum, r: Ring) {
    && RingShape(r)
    && (forall b :: 0 <= b < |r.casts| ==> CastOk(r.casts[b], |r.ids|))
    && (forall d :: 0 <= d < |r.links| ==> LinkOk(crc, r, r.links[d]))
    && (forall b :: 0 <= b < |r.casts| ==> CopiesOk(r, b))
  }

  lemma {:induction false} CopiesAppend(q: seq<Payload>, p: Payload, b: nat)
    ensures Copies(q + [p], b) == Copies(q, b) + if IsCopy(p, b) then 1 else 0
  {
    if q != [] {
      assert (q + [p])[1..] == q[1..] + [p];
      CopiesAppend(q[1..], p, b);
    }
  }

  lemma {:induction false} CopiesZero(q: seq<Payload>, b: nat, k: nat)
    requires Copies(q, b) == 0 && k < |q|
    ensures !IsCopy(q[k], b)
  {
    if k > 0 { CopiesZero(q[1..], b, k - 1); }
  }

  /** No copy carries a number that has not been given yet. */
  lemma {:induction false} NoFutureCopies(crc: Checksum, r: Ring, q: seq<Payload>)
    requires LinkOk(crc, r, q)
    ensures Copies(q, |r.casts|) == 0
  {
    if q != [] {
      assert CopyOk(crc, r, q[0]);
      assert forall k :: 0 <= k < |q[1..]| ==> q[1..][k] == q[k + 1];
      NoFutureCopies(crc, r, q[1..]);
    }
  }

  // ---------- originating ----------

  lemma OriginateKeeps(crc: Checksum, r: Ring, d: nat, buffer: seq<U8>)
    requires RingOk(crc, r) && RingEnabled(r, Originate(d, buffer))
    ensures RingOk(crc, Originated(crc, r, d, buffer))
  {
    var s, p := Originated(crc, r, d, buffer), Broadcasting(crc, r.ids[d], r.counters[d], buffer, |r.casts|);
    assert Visited(d, 0, |r.ids|) == [];
    NewPayloadKeeps(crc, r, s, d, p);
  }

  lemma OtherTrafficKeeps(crc: Checksum, r: Ring, d: nat, p: Payload)
    requires RingOk(crc, r) && RingEnabled(r, OtherTraffic(d, p))
    ensures RingOk(crc, OtherSent(r, d, p))
  {
    NewPayloadKeeps(crc, r, OtherSent(r, d, p), d, p.(num := |r.casts|));
  }

  /** A new payload with its own history is put on the link of device `d`. */
  lemma NewPayloadKeeps(crc: Checksum, r: Ring, s: Ring, d: nat, p: Payload)
    requires RingOk(crc, r) && RingShape(s) && s.ids == r.ids && d < |r.links| && p.num == |r.casts|
    requires s.links == r.links[d := r.links[d] + [p]]
    requires |s.casts| == |r.casts| + 1 && s.casts[..|r.casts|] == r.casts
    requires var c := s.casts[|r.casts|]; CastOk(c, |r.ids|) && c.alive && c.at == d
    requires CopyOk(crc, s, p)
    ensures RingOk(crc, s)
  {
    forall b | 0 <= b < |s.casts| ensures CastOk(s.casts[b], |s.ids|) && CopiesOk(s, b) {
      CopiesAppend(r.links[d], p, b);
      if b == |r.casts| {
        forall e | 0 <= e < |r.links| ensures Copies(r.links[e], b) == 0 { NoFutureCopies(crc, r, r.links[e]); }
      } else {
        assert CopiesOk(r, b);
        assert s.casts[b] == s.casts[..|r.casts|][b];
      }
    }
    forall e | 0 <= e < |s.links| ensures LinkOk(crc, s, s.links[e]) { LinkAfterOriginate(crc, r, s, e, d, p); }
  }

  lemma LinkAfterOriginate(crc: Checksum, r: Ring, s: Ring, e: nat, d: nat, p: Payload)
    requires RingShape(r) && e < |r.links| && d < |r.links| && LinkOk(crc, r, r.links[e])
    requires s.ids == r.ids && |s.casts| == |r.casts| + 1 && s.casts[..|r.casts|] == r.casts
    requires s.links == r.links[d := r.links[d] + [p]] && CopyOk(crc, s, p)
    ensures LinkOk(crc, s, s.links[e])
  {
    forall k | 0 <= k < |s.links[e]| ensures CopyOk(crc, s, s.links[e][k]) {
      if k < |r.links[e]| {
        assert CopyOk(crc, r, r.links[e][k]);
        assert forall b :: 0 <= b < |r.casts| ==> s.casts[b] == s.casts[..|r.casts|][b];
      }
    }
  }

  // ---------- hearing ----------

  /** A copy that is heard belongs to a living payload; of a broadcast, the hearer is the next device on its way. */
  lemma HeardCopyIsAlive(crc: Checksum, r: Ring, d: nat)
    requires RingOk(crc, r) && RingEnabled(r, Hear(d))
    ensures var p := r.links[Before(d, |r.ids|)][0];
            && CopyOk(crc, r, p) && p.num < |r.casts| && CastOk(r.casts[p.num], |r.ids|) && CopiesOk(r, p.num)
            && var c := r.casts[p.num];
               c.alive && c.at == Before(d, |r.ids|) && (c.everyone ==> d == Around(c.origin, c.hops, |r.ids|))
  {
    var from := Before(d, |r.ids|);
    var p := r.links[from][0];
    assert LinkOk(crc, r, r.links[from]);
    assert CopiesOk(r, p.num);
    assert Copies(r.links[from], p.num) > 0;
  }

  /** What the hearer's verdict makes of a broadcast. */
  lemma VerdictKeepsCast(crc: Checksum, ids: seq<U8>, c: Cast, d: nat, p: Payload)
    requires 2 <= |ids| && d < |ids| && forall a, b :: 0 <= a < b < |ids| ==> ids[a] != ids[b]
    requires CastOk(c, |ids|) && c.alive && c.everyone && d == Around(c.origin, c.hops, |ids|)
    requires p.body.dst == ID_ALL && Genuine(crc, p, ids[c.origin]) && p.body.ttl + c.hops == TTL + 1
    ensures var v := ReceivedVerdict(crc, ids[d], p);
            var next := Passed(c, d, v);
            && CastOk(next, |ids|) && |v.on| <= 1 && (next.alive <==> v.on != []) && (next.alive ==> next.at == d)
            && (v.acked <==> d == c.origin)
            && forall k :: 0 <= k < |v.on| ==>
                 && IsCopy(v.on[k], p.num) && v.on[k].body.dst == ID_ALL && Genuine(crc, v.on[k], ids[c.origin])
                 && v.on[k].body.ttl + next.hops == TTL + 1
  {
    BackAtOrigin(c.origin, c.hops, |ids|);
    assert ids[d] == ids[c.origin] <==> d == c.origin;
  }

  /** What it makes of any other payload. */
  lemma OtherVerdict(crc: Checksum, me: U8, c: Cast, d: nat, size: nat, p: Payload)
    requires CastOk(c, size) && !c.everyone && d < size && p.body.dst != ID_ALL && p.body.ttl + c.hops == c.ttl + 1
    ensures var v := ReceivedVerdict(crc, me, p);
            var next := Passed(c, d, v);
            && CastOk(next, size) && |v.on| <= 1 && !v.acked && (next.alive <==> v.on != [])
            && (next.alive ==> next.at == d)
            && forall k :: 0 <= k < |v.on| ==>
                 IsCopy(v.on[k], p.num) && v.on[k].body.dst != ID_ALL && v.on[k].body.ttl + next.hops == c.ttl + 1
  {}

  /** Both together. */
  lemma HeardKeepsCast(crc: Checksum, r: Ring, d: nat)
    requires RingOk(crc, r) && RingEnabled(r, Hear(d))
    ensures var p := r.links[Before(d, |r.ids|)][0];
            var v, s := ReceivedVerdict(crc, r.ids[d], p), Heard(crc, r, d);
            && p.num < |r.casts| && s.casts == r.casts[p.num := Passed(r.casts[p.num], d, v)]
            && CastOk(s.casts[p.num], |r.ids|) && |v.on| <= 1
            && (s.casts[p.num].alive <==> v.on != []) && (s.casts[p.num].alive ==> s.casts[p.num].at == d)
            && (v.acked <==> r.casts[p.num].everyone && d == r.casts[p.num].origin)
            && forall k :: 0 <= k < |v.on| ==> IsCopy(v.on[k], p.num) && CopyOk(crc, s, v.on[k])
  {
    var p := r.links[Before(d, |r.ids|)][0];
    HeardCopyIsAlive(crc, r, d);
    var c := r.casts[p.num];
    if c.everyone { VerdictKeepsCast(crc, r.ids, c, d, p); } else { OtherVerdict(crc, r.ids[d], c, d, |r.ids|, p); }
  }

  /** The counts of copies after one was taken and, perhaps, one passed on. */
  lemma CopiesMove(r: Ring, from: nat, d: nat, on: seq<Payload>, b: nat, e: nat)
    requires from < |r.links| && d < |r.links| && from != d && r.links[from] != [] && |on| <= 1 && e < |r.links|
    ensures var s := Put(Popped(r, from), d, on);
            Copies(s.links[e], b) == Copies(r.links[e], b)
              - (if e == from && IsCopy(r.links[from][0], b) then 1 else 0)
              + (if e == d && on != [] && IsCopy(on[0], b) then 1 else 0)
  {
    if e == d && on != [] { CopiesAppend(r.links[d], on[0], b); assert on == [on[0]]; }
    if on == [] { assert r.links[d] + on == r.links[d]; }
  }

  lemma LinkAfterHear(crc: Checksum, r: Ring, s: Ring, from: nat, d: nat, on: seq<Payload>, e: nat)
    requires RingShape(r) && from < |r.links| && d < |r.links| && from != d && r.links[from] != [] && e < |r.links|
    requires s.ids == r.ids && s.links == Put(Popped(r, from), d, on).links && LinkOk(crc, r, r.links[e])
    requires forall k :: 0 <= k < |on| ==> CopyOk(crc, s, on[k])
    requires forall k :: 0 <= k < |r.links[e]| ==>
        (e == from && k == 0) || (CopyOk(crc, r, r.links[e][k]) ==> CopyOk(crc, s, r.links[e][k]))
    ensures LinkOk(crc, s, s.links[e])
  {
    forall k | 0 <= k < |s.links[e]| ensures CopyOk(crc, s, s.links[e][k]) {
      if e == from { assert s.links[e][k] == r.links[e][k + 1]; }
      else if k < |r.links[e]| { assert s.links[e][k] == r.links[e][k]; }
      else { assert s.links[e][k] == on[k - |r.links[e]|]; }
    }
  }

  /** Copies of other broadcasts stay in order when one broadcast's history changes; the changed one has none left. */
  lemma OtherCopiesStayOk(crc: Checksum, r: Ring, s: Ring, b: nat, p: Payload)
    requires s.ids == r.ids && b < |r.casts| && |s.casts| == |r.casts|
    requires forall a :: 0 <= a < |r.casts| && a != b ==> s.casts[a] == r.casts[a]
    requires CopyOk(crc, r, p) && !IsCopy(p, b)
    ensures CopyOk(crc, s, p)
  {}

  /** After the only copy is taken, none is left among the others of its link or in any other link. */
  lemma {:induction false} OnlyCopyTaken(r: Ring, from: nat, e: nat, k: nat, b: nat)
    requires from < |r.links| && e < |r.links| && k < |r.links[e]| && (e == from ==> k > 0)
    requires r.links[from] != [] && IsCopy(r.links[from][0], b)
    requires Copies(r.links[from], b) == 1 && (e != from ==> Copies(r.links[e], b) == 0)
    ensures !IsCopy(r.links[e][k], b)
  {
    if e == from { CopiesZero(r.links[from][1..], b, k - 1); } else { CopiesZero(r.links[e], b, k); }
  }

  lemma HearKeepsLinks(crc: Checksum, r: Ring, d: nat)
    requires RingOk(crc, r) && RingEnabled(r, Hear(d))
    ensures forall e :: 0 <= e < |r.links| ==> LinkOk(crc, Heard(crc, r, d), Heard(crc, r, d).links[e])
  {
    var s, from := Heard(crc, r, d), Before(d, |r.ids|);
    var p := r.links[from][0];
    var v := ReceivedVerdict(crc, r.ids[d], p);
    HeardCopyIsAlive(crc, r, d);
    HeardKeepsCast(crc, r, d);
    forall e | 0 <= e < |r.links| ensures LinkOk(crc, s, s.links[e]) {
      forall k | 0 <= k < |r.links[e]| && !(e == from && k == 0) ensures CopyOk(crc, s, r.links[e][k]) {
        OnlyCopyTaken(r, from, e, k, p.num);
        assert CopyOk(crc, r, r.links[e][k]);
        OtherCopiesStayOk(crc, r, s, p.num, r.links[e][k]);
      }
      LinkAfterHear(crc, r, s, from, d, v.on, e);
    }
  }

  lemma HearKeeps(crc: Checksum, r: Ring, d: nat)
    requires RingOk(crc, r) && RingEnabled(r, Hear(d))
    ensures RingOk(crc, Heard(crc, r, d))
  {
    var s, from := Heard(crc, r, d), Before(d, |r.ids|);
    var p := r.links[from][0];
    var v := ReceivedVerdict(crc, r.ids[d], p);
    HeardCopyIsAlive(crc, r, d);
    HeardKeepsCast(crc, r, d);
    HearKeepsLinks(crc, r, d);
    forall b | 0 <= b < |s.casts| ensures CopiesOk(s, b) {
      assert CopiesOk(r, b);
      forall e | 0 <= e < |s.links|
        ensures Copies(s.links[e], b) == if s.casts[b].alive && s.casts[b].at == e then 1 else 0
      {
        CopiesMove(r, from, d, v.on, b, e);
      }
    }
  }

  lemma StepKeepsRing(crc: Checksum, r: Ring, step: RingStep)
    requires RingOk(crc, r) && RingEnabled(r, step)
    ensures RingOk(crc, NextRing(crc, r, step))
  {
    match step {
      case Originate(d, buffer) => OriginateKeeps(crc, r, d, buffer);
      case Hear(d) => HearKeeps(crc, r, d);
      case GiveUp(d) =>
        var s := r.(current := r.current[d := Idle]);
        assert forall b :: 0 <= b < |r.casts| ==> CopiesOk(r, b) ==> CopiesOk(s, b);
        assert forall e :: 0 <= e < |r.links| ==> LinkOk(crc, r, r.links[e]) ==> LinkOk(crc, s, s.links[e]);
      case OtherTraffic(d, p) => OtherTrafficKeeps(crc, r, d, p);
    }
  }

  // ---------- runs ----------

  function StartRing(ids: seq<U8>): Ring {
    Ring(ids, seq(|ids|, _ => []), seq(|ids|, _ => 0), seq(|ids|, _ => Idle), [], [])
  }

  predicate IsRingRun(crc: Checksum, r: Ring, steps: seq<RingStep>)
    decreases |steps|
  {
    steps == [] || (RingEnabled(r, steps[0]) && IsRingRun(crc, NextRing(crc, r, steps[0]), steps[1..]))
  }

  function AfterRing(crc: Checksum, r: Ring, steps: seq<RingStep>): Ring
    requires IsRingRun(crc, r, steps)
    decreases |steps|
  {
    if steps == [] then r else AfterRing(crc, NextRing(crc, r, steps[0]), steps[1..])
  }

  lemma {:induction false} RunKeepsRing(crc: Checksum, r: Ring, steps: seq<RingStep>)
    requires RingOk(crc, r) && IsRingRun(crc, r, steps)
    ensures RingOk(crc, AfterRing(crc, r, steps)) && AfterRing(crc, r, steps).ids == r.ids
    decreases |steps|
  {
    if steps != [] {
      StepKeepsRing(crc, r, steps[0]);
      RunKeepsRing(crc, NextRing(crc, r, steps[0]), steps[1..]);
    }
  }

  /** The copies of a payload on the first `k` links. */
  function TotalCopies(links: seq<seq<Payload>>, b: nat, k: nat): nat
    requires k <= |links|
  {
    if k == 0 then 0 else TotalCopies(links, b, k - 1) + Copies(links[k - 1], b)
  }

  lemma {:induction false} TotalCopiesIs(r: Ring, b: nat, k: nat)
    requires b < |r.casts| && CopiesOk(r, b) && k <= |r.links|
    ensures TotalCopies(r.links, b, k) == if r.casts[b].alive && r.casts[b].at < k then 1 else 0
  {
    if k > 0 { TotalCopiesIs(r, b, k - 1); }
  }

  lemma StartRingIsOk(crc: Checksum, ids: seq<U8>)
    requires RingShape(StartRing(ids))
    ensures RingOk(crc, StartRing(ids))
  {}

  /** In every reachable state, every payload, broadcast or not, whatever its TTL and its checksum, has at most one
      copy in flight and has been transmitted at most once more than the TTL it started with. */
  lemma EveryPayloadDies(crc: Checksum, ids: seq<U8>, steps: seq<RingStep>, b: nat)
    requires RingShape(StartRing(ids)) && IsRingRun(crc, StartRing(ids), steps)
    requires b < |AfterRing(crc, StartRing(ids), steps).casts|
    ensures var r := AfterRing(crc, StartRing(ids), steps);
            var c := r.casts[b];
            |r.links| == |ids| && 1 <= c.hops <= c.ttl + 1
            && TotalCopies(r.links, b, |ids|) == (if c.alive then 1 else 0)
  {
    StartRingIsOk(crc, ids);
    RunKeepsRing(crc, StartRing(ids), steps);
    var r := AfterRing(crc, StartRing(ids), steps);
    assert CopiesOk(r, b) && CastOk(r.casts[b], |ids|);
    TotalCopiesIs(r, b, |ids|);
  }

  /** In every reachable state of a ring of devices with distinct ids, whatever else is broadcast or sent: a broadcast
      has at most one copy in flight and has been transmitted at most TTL + 1 times; the devices that have processed
      it are those next after the origin, in ring order; it is acknowledged only after every other device has
      processed it once; and once nothing of it is in flight, it has been acknowledged if and only if the ring has at
      most TTL + 1 devices. */
  lemma BroadcastGoesRound(crc: Checksum, ids: seq<U8>, steps: seq<RingStep>, b: nat)
    requires RingShape(StartRing(ids)) && IsRingRun(crc, StartRing(ids), steps)
    requires var r := AfterRing(crc, StartRing(ids), steps); b < |r.casts| && r.casts[b].everyone
    ensures var r, n := AfterRing(crc, StartRing(ids), steps), |ids|;
            var c := r.casts[b];
            && |r.links| == n && c.origin < n && 1 <= c.hops <= TTL + 1
            && TotalCopies(r.links, b, n) == (if c.alive then 1 else 0)
            && |c.processed| < n && c.processed == Visited(c.origin, |c.processed|, n)
            && (c.acked ==> forall d :: 0 <= d < n ==> Visits(c.processed, d) == if d == c.origin then 0 else 1)
            && (c.alive ==> !c.acked) && (!c.alive ==> (c.acked <==> n <= TTL + 1))
  {
    EveryPayloadDies(crc, ids, steps, b);
    StartRingIsOk(crc, ids);
    RunKeepsRing(crc, StartRing(ids), steps);
    CastMeans(AfterRing(crc, StartRing(ids), steps).casts[b], |ids|);
  }

  lemma CastMeans(c: Cast, n: nat)
    requires 2 <= n && CastOk(c, n) && c.everyone
    ensures |c.processed| < n && c.processed == Visited(c.origin, |c.processed|, n)
    ensures c.acked && !c.alive ==> forall d :: 0 <= d < n ==> Visits(c.processed, d) == if d == c.origin then 0 else 1
    ensures !c.alive ==> (c.acked <==> n <= TTL + 1)
  {
    VisitedLength(c.origin, c.hops - 1, n);
    VisitedLength(c.origin, c.hops, n);
    var all := Visited(c.origin, n - 1, n);
    forall d | 0 <= d < n ensures Visits(all, d) == if d == c.origin then 0 else 1 {
      VisitedOnce(c.origin, n - 1, n, d);
    }
  }

  lemma {:induction false} VisitedLength(origin: nat, k: nat, size: nat)
    requires origin < size
    ensures |Visited(origin, k, size)| == k
  {
    if k > 0 { VisitedLength(origin, k - 1, size); }
  }
}
