/** Positions on a ring of devices: going round, and who is met when. */
module RingPositions {

  /** The device that is `k` hops after the origin. */
  function Around(origin: nat, k: nat, size: nat): nat
    requires origin < size
    ensures Around(origin, k, size) < size
  {
    if k == 0 then origin
    else var before := Around(origin, k - 1, size); if before + 1 == size then 0 else before + 1
  }

  /** The first `k` devices after the origin. */
  function Visited(origin: nat, k: nat, size: nat): seq<nat>
    requires origin < size
  {
    if k == 0 then [] else Visited(origin, k - 1, size) + [Around(origin, k, size)]
  }

  lemma {:induction false} AroundIs(origin: nat, k: nat, size: nat)
    requires origin < size && k <= size
    ensures Around(origin, k, size) == if origin + k < size then origin + k else origin + k - size
  {
    if k > 0 { AroundIs(origin, k - 1, size); }
  }

  /** The origin is met again after exactly `size` hops. */
  lemma BackAtOrigin(origin: nat, k: nat, size: nat)
    requires origin < size && 0 < k <= size
    ensures Around(origin, k, size) == origin <==> k == size
  {
    AroundIs(origin, k, size);
  }

  /** How often device `d` is in `q`. */
  function Visits(q: seq<nat>, d: nat): nat {
    if q == [] then 0 else Visits(q[..|q| - 1], d) + if q[|q| - 1] == d then 1 else 0
  }

  /** How far device `d` is after the origin. */
  function Distance(origin: nat, d: nat, size: nat): (k: nat)
    requires origin < size && d < size
    ensures k < size
  {
    if d >= origin then d - origin else d + size - origin
  }

  lemma {:induction false} VisitedOnce(origin: nat, k: nat, size: nat, d: nat)
    requires origin < size && k < size && d < size
    ensures Visits(Visited(origin, k, size), d) == if 1 <= Distance(origin, d, size) <= k then 1 else 0
  {
    if k > 0 {
      VisitedOnce(origin, k - 1, size, d);
      AroundIs(origin, k, size);
      var v := Visited(origin, k, size);
      assert v[..|v| - 1] == Visited(origin, k - 1, size);
    }
  }
}
