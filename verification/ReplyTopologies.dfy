/** On which topologies floods of winners and responses end, from every state: exactly on those in which the links
    between nodes close no cycle. No condition on distances is needed, and increments may wrap. */
module ReplyTopologies {
  import opened Bits
  import opened Flooding
  import opened Networks
  import opened ResponseFlooding
  import opened Roles

  /** A response at `d` becomes a winner at its sibling `s`, which answers to `p` at the far end of its link. */
  predicate Passes(w: World, d: nat, s: nat, p: nat)
    requires Connects(w)
  {
    && d < |w.devices| && s < |w.devices| && p < |w.devices|
    && w.devices[d].role.Forwarder? && w.devices[s].role.Forwarder? && w.devices[p].role.Forwarder?
    && s in w.siblings[d] && p in w.peers[s]
  }

  predicate AllReplies(flight: seq<Flight>) {
    forall i :: 0 <= i < |flight| ==> IsReply(flight[i])
  }

  predicate RepliesOnly(w: World) {
    Connects(w) && AllReplies(w.flight)
  }

  /** The same boards, wires and links, in any state. */
  predicate SameTopology(w: World, v: World) {
    && |v.devices| == |w.devices| && v.orientations == w.orientations && v.siblings == w.siblings && v.peers == w.peers
    && forall d :: 0 <= d < |w.devices| ==> (v.devices[d].role.Forwarder? <==> w.devices[d].role.Forwarder?)
  }

  // ---------- where ranks fall, floods end ----------

  /** A rank of the boards that falls wherever a response passes on. */
  ghost predicate Ranks(w: World, rank: seq<nat>)
    requires Connects(w)
  {
    |rank| == |w.devices| && forall d: nat, s: nat, p: nat :: Passes(w, d, s, p) ==> rank[p] < rank[d]
  }

  /** What a response at a board of that rank can still lead to, and what one of the winners that it tells can. */
  function ResponseWorth(rank: nat, size: nat): (r: nat)
    ensures r >= 1
    decreases rank, 1
  {
    1 + Times(size, WinnerWorth(rank, size))
  }

  function WinnerWorth(rank: nat, size: nat): nat
    decreases rank, 0
  {
    2 + if rank == 0 then 0 else ResponseWorth(rank - 1, size)
  }

  lemma {:induction false} TimesGrows(a: nat, k: nat, l: nat)
    requires k <= l
    ensures Times(a, k) <= Times(a, l)
  {
    if a > 0 { TimesGrows(a - 1, k, l); }
  }

  lemma {:induction false} WorthGrows(r: nat, q: nat, size: nat)
    requires r <= q
    ensures ResponseWorth(r, size) <= ResponseWorth(q, size) && WinnerWorth(r, size) <= WinnerWorth(q, size)
    decreases q
  {
    if r > 0 { WorthGrows(r - 1, q - 1, size); }
    TimesGrows(size, WinnerWorth(r, size), WinnerWorth(q, size));
  }

  function WorthAt(devices: seq<Local>, rank: seq<nat>, d: nat): (r: nat)
    ensures r >= 1
  {
    if d < |devices| && d < |rank| && devices[d].role.Forwarder? then ResponseWorth(rank[d], |devices|) else 1
  }

  function ReplyWorth(devices: seq<Local>, peers: seq<seq<nat>>, rank: seq<nat>): Flight -> nat {
    (f: Flight) =>
      if f.FromPeer? then WorthAt(devices, rank, f.to)
      else if f.to < |devices| && devices[f.to].role.Forwarder? && f.to < |peers| && peers[f.to] != []
      then 1 + WorthAt(devices, rank, peers[f.to][0])
      else 1
  }

  function Worth(w: World, rank: seq<nat>): Flight -> nat {
    ReplyWorth(w.devices, w.peers, rank)
  }

  /** What an accepted response tells is worth less than itself. */
  lemma ResponseWorthFalls(w: World, rank: seq<nat>, f: Flight)
    requires Connects(w) && Ranks(w, rank) && IsReply(f) && f.FromPeer? && f.to < |w.devices|
    ensures var emitted := Emitted(w.siblings[f.to], w.peers[f.to], Handled(w, f).actions);
            && Weight(Worth(w, rank), emitted) < Worth(w, rank)(f)
            && AllReplies(emitted)
  {
    var l := w.devices[f.to];
    if l.role.Forwarder? {
      ResponseHandled(w, f);
      var (next, actions) := OnGatewayResponse(l.role.fwd, w.orientations[f.to], f.peer.responder, f.peer.responseDtr);
      if actions != [] { WinnersWorthLess(w, rank, f.to, GatewayWinner(f.peer.responder, next.dtr)); }
    } else {
      assert Handled(w, f).actions == [];
    }
  }

  lemma WinnersWorthLess(w: World, rank: seq<nat>, d: nat, ev: SiblEvent)
    requires Connects(w) && Ranks(w, rank) && d < |w.devices| && w.devices[d].role.Forwarder? && ev.GatewayWinner?
    ensures Weight(Worth(w, rank), ToSiblings(w.siblings[d], ev)) < WorthAt(w.devices, rank, d)
  {
    var size, told := |w.devices|, ToSiblings(w.siblings[d], ev);
    forall k | 0 <= k < |told| ensures Worth(w, rank)(told[k]) <= WinnerWorth(rank[d], size) {
      OneWinnerWorth(w, rank, d, w.siblings[d][k], told[k]);
    }
    WeightAtMost(Worth(w, rank), told, size, WinnerWorth(rank[d], size));
  }

  lemma OneWinnerWorth(w: World, rank: seq<nat>, d: nat, s: nat, f: Flight)
    requires Connects(w) && Ranks(w, rank) && d < |w.devices| && w.devices[d].role.Forwarder?
    requires s in w.siblings[d] && f.FromSibling? && f.to == s < |w.devices|
    ensures Worth(w, rank)(f) <= WinnerWorth(rank[d], |w.devices|)
  {
    if w.devices[s].role.Forwarder? && w.peers[s] != [] {
      var p := w.peers[s][0];
      if w.devices[p].role.Forwarder? {
        assert Passes(w, d, s, p);
        WorthGrows(rank[p], rank[d] - 1, |w.devices|);
      }
    }
  }

  lemma WeightOfOne(g: Flight -> nat, f: Flight)
    ensures Weight(g, [f]) == g(f)
  {
    assert [f][1..] == [];
  }

  lemma AnswersWorthLess(w: World, rank: seq<nat>, d: nat, winner: SiblEvent, answer: PeerEvent)
    requires Connects(w) && d < |w.devices| && w.devices[d].role.Forwarder?
    ensures Weight(Worth(w, rank), ToPeers(w.peers[d], answer)) < Worth(w, rank)(FromSibling(d, winner))
  {
    if w.peers[d] == [] {
      assert ToPeers(w.peers[d], answer) == [];
    } else {
      assert ToPeers(w.peers[d], answer) == [FromPeer(w.peers[d][0], answer)];
      WeightOfOne(Worth(w, rank), FromPeer(w.peers[d][0], answer));
    }
  }

  /** A winner is answered to one peer at most. */
  lemma WinnerWorthFalls(w: World, rank: seq<nat>, f: Flight)
    requires Connects(w) && IsReply(f) && f.FromSibling? && f.to < |w.devices|
    ensures var emitted := Emitted(w.siblings[f.to], w.peers[f.to], Handled(w, f).actions);
            && Weight(Worth(w, rank), emitted) < Worth(w, rank)(f)
            && AllReplies(emitted)
  {
    var l := w.devices[f.to];
    if l.role.Forwarder? {
      WinnerHandled(w, f);
      var (next, _) := OnGatewayWinner(l.role.fwd, f.sibl.winnerDtr);
      AnswersWorthLess(w, rank, f.to, f.sibl, GatewayResponse(next.nodeNetwork, next.dtr));
    } else {
      assert Handled(w, f).actions == [];
    }
  }

  lemma RolesStay(l: Local, o: U8, f: Flight)
    requires IsReply(f)
    ensures var r := (if f.FromSibling? then HandleSibling(l, o, f.sibl) else HandlePeer(l, o, f.peer)).local;
            r.role.Forwarder? <==> l.role.Forwarder?
  {}

  lemma DeliverKeepsTopology(w: World, i: nat)
    requires RepliesOnly(w) && i < |w.flight|
    ensures SameTopology(w, Deliver(w, i))
  {
    RolesStay(w.devices[w.flight[i].to], w.orientations[w.flight[i].to], w.flight[i]);
  }

  lemma SameTopologyWorth(w: World, v: World, rank: seq<nat>, flight: seq<Flight>)
    requires SameTopology(w, v)
    ensures Weight(Worth(v, rank), flight) == Weight(Worth(w, rank), flight)
  {
    forall k | 0 <= k < |flight| ensures Worth(v, rank)(flight[k]) == Worth(w, rank)(flight[k]) {
      SameWorthAt(w, v, rank, flight[k].to);
      if flight[k].to < |w.peers| && w.peers[flight[k].to] != [] { SameWorthAt(w, v, rank, w.peers[flight[k].to][0]); }
    }
    WeightAgrees(Worth(v, rank), Worth(w, rank), flight);
  }

  lemma SameWorthAt(w: World, v: World, rank: seq<nat>, d: nat)
    requires SameTopology(w, v)
    ensures WorthAt(v.devices, rank, d) == WorthAt(w.devices, rank, d)
  {}

  lemma SameTopologyPasses(w: World, v: World, d: nat, s: nat, p: nat)
    requires Connects(w) && Connects(v) && SameTopology(w, v)
    ensures Passes(v, d, s, p) <==> Passes(w, d, s, p)
  {}

  lemma SameTopologyRanks(w: World, v: World, rank: seq<nat>)
    requires Connects(w) && Connects(v) && SameTopology(w, v) && Ranks(w, rank)
    ensures Ranks(v, rank)
  {
    forall d: nat, s: nat, p: nat | Passes(v, d, s, p) ensures rank[p] < rank[d] { SameTopologyPasses(w, v, d, s, p); }
  }

  lemma DeliverLowersWorth(w: World, rank: seq<nat>, i: nat)
    requires RepliesOnly(w) && Ranks(w, rank) && i < |w.flight|
    ensures var r := Deliver(w, i);
            && RepliesOnly(r) && Ranks(r, rank)
            && Weight(Worth(r, rank), r.flight) < Weight(Worth(w, rank), w.flight)
  {
    var f, r := w.flight[i], Deliver(w, i);
    DeliverConnects(w, i);
    DeliverKeepsTopology(w, i);
    SameTopologyRanks(w, r, rank);
    if f.FromPeer? { ResponseWorthFalls(w, rank, f); } else { WinnerWorthFalls(w, rank, f); }
    WeightAfter(Worth(w, rank), w.flight, i, Emitted(w.siblings[f.to], w.peers[f.to], Handled(w, f).actions));
    SameTopologyWorth(w, r, rank, r.flight);
  }

  /** Where some rank of the boards falls wherever a response passes on, a flood of replies is no longer than what the
      replies at its start are worth: from every state, in every delivery order, whatever the distances. */
  lemma {:induction false} RepliesEnd(w: World, rank: seq<nat>, choices: seq<nat>)
    requires RepliesOnly(w) && Ranks(w, rank) && IsFlood(w, choices)
    ensures |choices| <= Weight(Worth(w, rank), w.flight)
    decreases |choices|
  {
    if choices != [] {
      DeliverLowersWorth(w, rank, choices[0]);
      RepliesEnd(Deliver(w, choices[0]), rank, choices[1..]);
    }
  }

  // ---------- walks ----------

  /** The way of a response over boards `c`, through their siblings `s`. */
  predicate IsWalk(w: World, c: seq<nat>, s: seq<nat>)
    requires Connects(w)
  {
    |c| == |s| + 1 && forall i :: 0 <= i < |s| ==> Passes(w, c[i], s[i], c[i + 1])
  }

  predicate IsClosed(w: World, c: seq<nat>, s: seq<nat>)
    requires Connects(w)
  {
    IsWalk(w, c, s) && |s| > 0 && c[0] == c[|s|]
  }

  predicate Leads(w: World, d: nat, p: nat)
    requires Connects(w)
  {
    exists s :: 0 <= s < |w.devices| && Passes(w, d, s, p)
  }

  predicate CanWalk(w: World, d: nat, k: nat)
    requires Connects(w)
    decreases k
  {
    k == 0 || exists p :: 0 <= p < |w.devices| && Leads(w, d, p) && CanWalk(w, p, k - 1)
  }

  lemma {:induction false} TakeWalk(w: World, d: nat, k: nat) returns (c: seq<nat>, s: seq<nat>)
    requires Connects(w) && CanWalk(w, d, k) && d < |w.devices|
    ensures IsWalk(w, c, s) && c[0] == d && |s| == k && forall i :: 0 <= i < |c| ==> c[i] < |w.devices|
    decreases k
  {
    if k == 0 {
      c, s := [d], [];
    } else {
      var p :| 0 <= p < |w.devices| && Leads(w, d, p) && CanWalk(w, p, k - 1);
      var t :| 0 <= t < |w.devices| && Passes(w, d, t, p);
      var c1, s1 := TakeWalk(w, p, k - 1);
      c, s := [d] + c1, [t] + s1;
      forall i | 0 <= i < |s| ensures Passes(w, c[i], s[i], c[i + 1]) {
        if i > 0 { assert Passes(w, c1[i - 1], s1[i - 1], c1[i]); }
      }
    }
  }

  // ---------- a walk longer than the number of boards meets one twice ----------

  predicate Distinct(q: seq<nat>) {
    forall i, j :: 0 <= i < j < |q| ==> q[i] != q[j]
  }

  function Below(n: nat): (r: set<nat>)
    ensures |r| == n && forall x: nat :: x in r <==> x < n
  {
    if n == 0 then {} else Below(n - 1) + {n - 1}
  }

  lemma {:induction false} DistinctIsShort(q: seq<nat>, within: set<nat>)
    requires Distinct(q) && forall i :: 0 <= i < |q| ==> q[i] in within
    ensures |q| <= |within|
  {
    if q != [] {
      var last := q[|q| - 1];
      DistinctIsShort(q[..|q| - 1], within - {last});
    }
  }

  lemma MeetsTwice(c: seq<nat>, n: nat) returns (i: nat, j: nat)
    requires |c| > n && forall k :: 0 <= k < |c| ==> c[k] < n
    ensures i < j < |c| && c[i] == c[j]
  {
    if Distinct(c) { DistinctIsShort(c, Below(n)); }
    i, j :| 0 <= i < j < |c| && c[i] == c[j];
  }

  lemma PartOfWalk(w: World, c: seq<nat>, s: seq<nat>, i: nat, j: nat)
    requires Connects(w) && IsWalk(w, c, s) && i <= j <= |s|
    ensures IsWalk(w, c[i..j + 1], s[i..j])
  {
    forall k | 0 <= k < j - i ensures Passes(w, c[i..j + 1][k], s[i..j][k], c[i..j + 1][k + 1]) {
      assert Passes(w, c[i + k], s[i + k], c[i + k + 1]);
    }
  }

  // ---------- without closed walks there is a rank ----------

  /** How far a response at `d` can go, up to `k` passes. */
  function Height(w: World, d: nat, k: nat): (h: nat)
    requires Connects(w)
    ensures h <= k && CanWalk(w, d, h)
    decreases k
  {
    if k == 0 || CanWalk(w, d, k) then k else Height(w, d, k - 1)
  }

  lemma {:induction false} HeightIsMost(w: World, d: nat, k: nat, j: nat)
    requires Connects(w) && j <= k && CanWalk(w, d, j)
    ensures j <= Height(w, d, k)
    decreases k
  {
    if k > 0 && !CanWalk(w, d, k) { HeightIsMost(w, d, k - 1, j); }
  }

  ghost predicate HasClosedWalk(w: World)
    requires Connects(w)
  {
    exists c, s :: IsClosed(w, c, s)
  }

  /** A walk as long as the number of boards closes on its way. */
  lemma LongWalkCloses(w: World, d: nat)
    requires Connects(w) && d < |w.devices| && CanWalk(w, d, |w.devices|)
    ensures HasClosedWalk(w)
  {
    var c, s := TakeWalk(w, d, |w.devices|);
    var i, j := MeetsTwice(c, |w.devices|);
    PartOfWalk(w, c, s, i, j);
    assert IsClosed(w, c[i..j + 1], s[i..j]);
  }

  function HeightOf(w: World, d: nat): nat
    requires Connects(w)
  {
    Height(w, d, |w.devices|)
  }

  lemma HeightFalls(w: World, d: nat, s: nat, p: nat)
    requires Connects(w) && !HasClosedWalk(w) && Passes(w, d, s, p)
    ensures HeightOf(w, p) < HeightOf(w, d)
  {
    if CanWalk(w, p, |w.devices|) { LongWalkCloses(w, p); }
    assert Leads(w, d, p);
    assert CanWalk(w, d, HeightOf(w, p) + 1);
    HeightIsMost(w, d, |w.devices|, HeightOf(w, p) + 1);
  }

  lemma RankExists(w: World) returns (rank: seq<nat>)
    requires Connects(w) && !HasClosedWalk(w)
    ensures Ranks(w, rank)
  {
    rank := seq(|w.devices|, d requires 0 <= d < |w.devices| => HeightOf(w, d));
    forall d: nat, s: nat, p: nat | Passes(w, d, s, p) ensures rank[p] < rank[d] { HeightFalls(w, d, s, p); }
  }

  // ---------- a closed walk can be made simple ----------

  /** So that distances can go up by one at every board and every sibling of a walk. */
  const MAX_BOARDS: nat := 0x8000_0000

  /** Boards of nodes: the siblings of a board are the other boards of its node, and links join two boards both ways. */
  predicate Wired(w: World) {
    && Connects(w) && |w.devices| < MAX_BOARDS
    && (forall d, s :: 0 <= d < |w.devices| && s in w.siblings[d] ==>
          && s < |w.devices| && s != d && d in w.siblings[s]
          && forall t :: t in w.siblings[s] && t != d ==> t in w.siblings[d])
    && (forall d, p :: 0 <= d < |w.devices| && p in w.peers[d] ==> p < |w.devices| && p != d && d in w.peers[p])
  }

  /** No board is met twice, and no board is both passed from and passed through: each link is used once, in one
      direction. */
  predicate IsSimple(c: seq<nat>, s: seq<nat>) {
    |c| == |s| + 1 && Distinct(c[..|s|]) && forall i, j :: 0 <= i < |s| && 0 <= j < |s| ==> s[i] != c[j]
  }

  lemma OnePeer(w: World, s: nat, p: nat, q: nat)
    requires Connects(w) && s < |w.devices| && p in w.peers[s] && q in w.peers[s]
    ensures p == q
  {}

  lemma ThroughAnotherSibling(w: World, d: nat, back: nat, t: nat, p: nat, q: nat)
    requires Wired(w) && Passes(w, d, back, p) && Passes(w, back, t, q) && t != d
    ensures Passes(w, d, t, q)
  {}

  /** A walk that leaves a node where it came in before has a shorter closed walk inside it: the way between is closed
      through another board of the node, or it comes in where it left, and the same holds one step further in. */
  lemma {:induction false} Shortcut(w: World, c: seq<nat>, s: seq<nat>, j: nat, i: nat)
    returns (c1: seq<nat>, s1: seq<nat>)
    requires Wired(w) && IsWalk(w, c, s) && j < i < |s| && s[i] == c[j]
    ensures IsClosed(w, c1, s1) && |s1| <= i - j
    decreases i - j
  {
    assert Passes(w, c[j], s[j], c[j + 1]) && Passes(w, c[i], s[i], c[i + 1]);
    if s[j] != c[i] {
      ThroughAnotherSibling(w, c[i], s[i], s[j], c[i + 1], c[j + 1]);
      c1, s1 := c[j + 1..i + 1] + [c[j + 1]], s[j + 1..i] + [s[j]];
      ClosesThrough(w, c, s, j, i);
    } else {
      assert Passes(w, c[i - 1], s[i - 1], c[i]);
      OnePeer(w, c[i], c[j + 1], s[i - 1]);
      if i - 1 > j {
        assert Passes(w, c[j + 1], s[j + 1], c[j + 2]);
      }
      c1, s1 := Shortcut(w, c, s, j + 1, i - 1);
    }
  }

  lemma ClosesThrough(w: World, c: seq<nat>, s: seq<nat>, j: nat, i: nat)
    requires Connects(w) && IsWalk(w, c, s) && j < i < |s| && Passes(w, c[i], s[j], c[j + 1])
    ensures IsClosed(w, c[j + 1..i + 1] + [c[j + 1]], s[j + 1..i] + [s[j]])
  {
    var c1, s1 := c[j + 1..i + 1] + [c[j + 1]], s[j + 1..i] + [s[j]];
    forall k | 0 <= k < |s1| ensures Passes(w, c1[k], s1[k], c1[k + 1]) {
      if k < |s1| - 1 { assert Passes(w, c[j + 1 + k], s[j + 1 + k], c[j + 2 + k]); }
    }
  }

  /** The same closed walk, started at its j-th board. */
  lemma Rotated(w: World, c: seq<nat>, s: seq<nat>, j: nat)
    requires Connects(w) && IsClosed(w, c, s) && j < |s|
    ensures IsClosed(w, c[j..|s|] + c[..j + 1], s[j..] + s[..j])
  {
    var n := |s|;
    var c1, s1 := c[j..n] + c[..j + 1], s[j..] + s[..j];
    forall k | 0 <= k < n ensures Passes(w, c1[k], s1[k], c1[k + 1]) {
      if k < n - j { assert Passes(w, c[j + k], s[j + k], c[j + k + 1]); }
      else { assert Passes(w, c[k - (n - j)], s[k - (n - j)], c[k - (n - j) + 1]); }
    }
  }

  /** A closed walk that passes from a board that it passes through has a shorter closed walk inside it. */
  lemma ShorterThroughSibling(w: World, c: seq<nat>, s: seq<nat>, i: nat, j: nat)
    returns (c1: seq<nat>, s1: seq<nat>)
    requires Wired(w) && IsClosed(w, c, s) && i < |s| && j < |s| && s[i] == c[j]
    ensures IsClosed(w, c1, s1) && |s1| < |s|
  {
    assert Passes(w, c[i], s[i], c[i + 1]);
    if j < i {
      c1, s1 := Shortcut(w, c, s, j, i);
    } else {
      Rotated(w, c, s, j);
      c1, s1 := Shortcut(w, c[j..|s|] + c[..j + 1], s[j..] + s[..j], 0, |s| - j + i);
    }
  }

  /** Either way in which a closed walk is not simple gives a shorter one. */
  lemma Shorter(w: World, c: seq<nat>, s: seq<nat>) returns (c1: seq<nat>, s1: seq<nat>)
    requires Wired(w) && IsClosed(w, c, s) && !IsSimple(c, s)
    ensures IsClosed(w, c1, s1) && |s1| < |s|
  {
    if !Distinct(c[..|s|]) {
      var i, j :| 0 <= i < j < |s| && c[i] == c[j];
      PartOfWalk(w, c, s, i, j);
      c1, s1 := c[i..j + 1], s[i..j];
    } else {
      var i, j :| 0 <= i < |s| && 0 <= j < |s| && s[i] == c[j];
      c1, s1 := ShorterThroughSibling(w, c, s, i, j);
    }
  }

  lemma {:induction false} MakeSimple(w: World, c: seq<nat>, s: seq<nat>) returns (c1: seq<nat>, s1: seq<nat>)
    requires Wired(w) && IsClosed(w, c, s)
    ensures IsClosed(w, c1, s1) && IsSimple(c1, s1)
    decreases |s|
  {
    if IsSimple(c, s) {
      c1, s1 := c, s;
    } else {
      c1, s1 := Shorter(w, c, s);
      c1, s1 := MakeSimple(w, c1, s1);
    }
  }

  // ---------- round a simple closed walk replies go for ever ----------

  /** The first position of `d`, or the length. */
  function Find(q: seq<nat>, d: nat): (i: nat)
    ensures i <= |q| && (i < |q| ==> q[i] == d) && forall j :: 0 <= j < i ==> q[j] != d
  {
    if q == [] || q[0] == d then 0 else 1 + Find(q[1..], d)
  }

  /** The distances go up by one along the walk, from the sibling at distance 1 that it starts from. */
  function DtrOnWalk(c: seq<nat>, s: seq<nat>, d: nat): U32
    requires |c| == |s| + 1 && |s| < MAX_BOARDS
  {
    var i, j := Find(c[..|s|], d), Find(s, d);
    if i < |s| then (if i == 0 then 2 * |s| else 2 * i)
    else if j < |s| then 2 * j + 1
    else 0
  }

  function LoopLocal(w: World, c: seq<nat>, s: seq<nat>, d: nat): Local
    requires d < |w.devices| && |c| == |s| + 1 && |s| < MAX_BOARDS
  {
    if w.devices[d].role.Forwarder? then At(DtrOnWalk(c, s, d), Find(c[..|s|], d) < |s|, NONE) else w.devices[d]
  }

  function LoopWorld(w: World, c: seq<nat>, s: seq<nat>, flight: seq<Flight>): (v: World)
    requires |c| == |s| + 1 && |s| < MAX_BOARDS
    ensures SameTopology(w, v) && v.flight == flight
    ensures forall d :: 0 <= d < |w.devices| ==> v.devices[d] == LoopLocal(w, c, s, d)
  {
    w.(devices := seq(|w.devices|, d requires 0 <= d < |w.devices| => LoopLocal(w, c, s, d)), flight := flight)
  }

  /** The winner at the i-th sibling, and the response at the i-th board. */
  function WinnerOn(s: seq<nat>, i: nat): Flight
    requires i < |s| < MAX_BOARDS
  {
    FromSibling(s[i], GatewayWinner(NONE, if i == 0 then 2 * |s| else 2 * i))
  }

  function ResponseOn(c: seq<nat>, i: nat): Flight
    requires 1 <= i < |c| <= MAX_BOARDS
  {
    FromPeer(c[i], GatewayResponse(NONE, 2 * i - 1))
  }

  predicate IsLoop(w: World, c: seq<nat>, s: seq<nat>) {
    Connects(w) && IsClosed(w, c, s) && IsSimple(c, s) && |s| < MAX_BOARDS
  }

  /** Where the board after the i-th sibling is among the boards of the walk. */
  function After(s: seq<nat>, i: nat): (j: nat)
    requires i < |s|
    ensures j < |s|
  {
    if i + 1 == |s| then 0 else i + 1
  }

  /** No sibling is passed through twice, as it has one link. */
  lemma SiblingsDiffer(w: World, c: seq<nat>, s: seq<nat>, i: nat, j: nat)
    requires IsLoop(w, c, s) && i < |s| && j < |s| && s[i] == s[j]
    ensures i == j
  {
    assert Passes(w, c[i], s[i], c[i + 1]) && Passes(w, c[j], s[j], c[j + 1]);
    OnePeer(w, s[i], c[i + 1], c[j + 1]);
    assert c[..|s|][After(s, i)] == c[i + 1] && c[..|s|][After(s, j)] == c[j + 1];
  }

  lemma SiblingsOnce(w: World, c: seq<nat>, s: seq<nat>, i: nat)
    requires IsLoop(w, c, s) && i < |s|
    ensures Find(s, s[i]) == i && Find(c[..|s|], s[i]) == |s|
  {
    SiblingsDiffer(w, c, s, Find(s, s[i]), i);
    assert forall k :: 0 <= k < |s| ==> c[..|s|][k] == c[k];
  }

  lemma BoardsOnce(c: seq<nat>, s: seq<nat>, i: nat)
    requires IsSimple(c, s) && i < |s|
    ensures Find(c[..|s|], c[i]) == i
  {
    var k := Find(c[..|s|], c[i]);
    assert c[..|s|][i] == c[i];
  }

  lemma SiblingOnLoop(w: World, c: seq<nat>, s: seq<nat>, i: nat)
    requires IsLoop(w, c, s) && i < |s|
    ensures s[i] < |w.devices| && LoopLocal(w, c, s, s[i]) == At(2 * i + 1, false, NONE) && c[i + 1] in w.peers[s[i]]
  {
    assert Passes(w, c[i], s[i], c[i + 1]);
    SiblingsOnce(w, c, s, i);
  }

  lemma BoardOnLoop(w: World, c: seq<nat>, s: seq<nat>, i: nat)
    requires IsLoop(w, c, s) && 1 <= i <= |s|
    ensures var j := if i == |s| then 0 else i;
            && c[i] == c[j] < |w.devices| && s[j] in w.siblings[c[i]]
            && LoopLocal(w, c, s, c[i]) == At(2 * i, true, NONE)
  {
    var j := if i == |s| then 0 else i;
    assert Passes(w, c[j], s[j], c[j + 1]);
    BoardsOnce(c, s, j);
  }

  predicate OnLoop(c: seq<nat>, s: seq<nat>, f: Flight)
    requires |c| == |s| + 1 && |s| < MAX_BOARDS
  {
    exists i :: 0 <= i < |s| && (f == WinnerOn(s, i) || f == ResponseOn(c, i + 1))
  }

  /** The boards of `v` are those of the loop. */
  predicate LoopState(w: World, c: seq<nat>, s: seq<nat>, v: World)
    requires IsLoop(w, c, s)
  {
    RepliesOnly(v) && SameTopology(w, v) && v.devices == LoopWorld(w, c, s, []).devices
  }

  /** Delivering the reply changes no board and sends `next`. */
  predicate LeadsTo(v: World, f: Flight, next: Flight)
    requires Connects(v)
  {
    && f.to < |v.devices| && Handled(v, f).local == v.devices[f.to]
    && next in Emitted(v.siblings[f.to], v.peers[f.to], Handled(v, f).actions)
  }

  /** A winner leaves a board as it is that is at distance 1, or one further than the winner says. */
  lemma WinnerLeads(v: World, f: Flight, next: Flight, dtr: U32)
    requires Connects(v) && f.to < |v.devices| && v.devices[f.to] == At(dtr, false, NONE) && next.to in v.peers[f.to]
    requires f.FromSibling? && f.sibl.GatewayWinner? && (dtr == 1 || dtr == f.sibl.winnerDtr + 1)
    requires next == FromPeer(next.to, GatewayResponse(NONE, dtr))
    ensures LeadsTo(v, f, next)
  {
    WinnerHandled(v, f);
    IsToPeer(v.peers[f.to], next.to, GatewayResponse(NONE, dtr));
  }

  lemma TakenAgain(dtr: U32, o: U8)
    requires dtr > 1
    ensures var l := At(dtr, true, NONE);
            var (next, actions) := OnGatewayResponse(l.role.fwd, o, NONE, dtr - 1);
            next == l.role.fwd && actions != [] && WithForwarder(l, (next, actions)).local == l
  {}

  lemma ResponseLeads(v: World, f: Flight, next: Flight, dtr: U32)
    requires Connects(v) && f.to < |v.devices| && v.devices[f.to] == At(dtr, true, NONE) && next.to in v.siblings[f.to]
    requires dtr > 1 && f == FromPeer(f.to, GatewayResponse(NONE, dtr - 1))
    requires next == FromSibling(next.to, GatewayWinner(NONE, dtr))
    ensures LeadsTo(v, f, next)
  {
    ResponseHandled(v, f);
    TakenAgain(dtr, v.orientations[f.to]);
    IsToSibling(v.siblings[f.to], next.to, GatewayWinner(NONE, dtr));
  }

  lemma LoopDevice(w: World, c: seq<nat>, s: seq<nat>, v: World, d: nat)
    requires IsLoop(w, c, s) && LoopState(w, c, s, v) && d < |w.devices|
    ensures v.devices[d] == LoopLocal(w, c, s, d)
  {}

  lemma SiblingOfLoop(w: World, c: seq<nat>, s: seq<nat>, v: World, i: nat)
    requires IsLoop(w, c, s) && LoopState(w, c, s, v) && i < |s|
    ensures Connects(v) && s[i] < |v.devices| && v.devices[s[i]] == At(2 * i + 1, false, NONE)
            && c[i + 1] in v.peers[s[i]]
  {
    SiblingOnLoop(w, c, s, i);
    LoopDevice(w, c, s, v, s[i]);
  }

  lemma WinnerGoesOn(w: World, c: seq<nat>, s: seq<nat>, v: World, i: nat)
    requires IsLoop(w, c, s) && LoopState(w, c, s, v) && i < |s|
    ensures LeadsTo(v, WinnerOn(s, i), ResponseOn(c, i + 1))
  {
    SiblingOfLoop(w, c, s, v, i);
    WinnerLeads(v, WinnerOn(s, i), ResponseOn(c, i + 1), 2 * i + 1);
  }

  lemma ResponseGoesOn(w: World, c: seq<nat>, s: seq<nat>, v: World, i: nat)
    requires IsLoop(w, c, s) && LoopState(w, c, s, v) && 1 <= i <= |s|
    ensures LeadsTo(v, ResponseOn(c, i), WinnerOn(s, if i == |s| then 0 else i))
  {
    BoardOnLoop(w, c, s, i);
    LoopDevice(w, c, s, v, c[i]);
    ResponseLeads(v, ResponseOn(c, i), WinnerOn(s, if i == |s| then 0 else i), 2 * i);
  }

  lemma IsToPeer(peers: seq<nat>, p: nat, ev: PeerEvent)
    requires p in peers
    ensures FromPeer(p, ev) in ToPeers(peers, ev)
  {
    var k :| 0 <= k < |peers| && peers[k] == p;
    assert ToPeers(peers, ev)[k] == FromPeer(p, ev);
  }

  lemma IsToSibling(siblings: seq<nat>, s: nat, ev: SiblEvent)
    requires s in siblings
    ensures FromSibling(s, ev) in ToSiblings(siblings, ev)
  {
    var k :| 0 <= k < |siblings| && siblings[k] == s;
    assert ToSiblings(siblings, ev)[k] == FromSibling(s, ev);
  }

  lemma NextOnLoop(w: World, c: seq<nat>, s: seq<nat>, v: World, f: Flight) returns (next: Flight)
    requires IsLoop(w, c, s) && LoopState(w, c, s, v) && OnLoop(c, s, f)
    ensures LeadsTo(v, f, next) && OnLoop(c, s, next)
  {
    var i :| 0 <= i < |s| && (f == WinnerOn(s, i) || f == ResponseOn(c, i + 1));
    if f == WinnerOn(s, i) {
      next := ResponseOn(c, i + 1);
      WinnerGoesOn(w, c, s, v, i);
    } else {
      next := WinnerOn(s, After(s, i));
      ResponseGoesOn(w, c, s, v, i + 1);
    }
  }

  /** One of the loop's replies is on its way. */
  predicate Circling(w: World, c: seq<nat>, s: seq<nat>, v: World)
    requires IsLoop(w, c, s)
  {
    LoopState(w, c, s, v) && exists k :: 0 <= k < |v.flight| && OnLoop(c, s, v.flight[k])
  }

  lemma CirclesOn(w: World, c: seq<nat>, s: seq<nat>, v: World) returns (k: nat)
    requires IsLoop(w, c, s) && Circling(w, c, s, v)
    ensures k < |v.flight| && Circling(w, c, s, Deliver(v, k))
  {
    k :| 0 <= k < |v.flight| && OnLoop(c, s, v.flight[k]);
    var next := NextOnLoop(w, c, s, v, v.flight[k]);
    StateStays(w, c, s, v, k, next);
    var r := Deliver(v, k);
    var j :| 0 <= j < |r.flight| && r.flight[j] == next;
    assert OnLoop(c, s, r.flight[j]);
  }

  lemma StateStays(w: World, c: seq<nat>, s: seq<nat>, v: World, k: nat, next: Flight)
    requires IsLoop(w, c, s) && LoopState(w, c, s, v) && k < |v.flight| && LeadsTo(v, v.flight[k], next)
    ensures LoopState(w, c, s, Deliver(v, k)) && next in Deliver(v, k).flight
  {
    DeliverConnects(v, k);
    EmitsReplies(v, v.flight[k]);
    var f, r := v.flight[k], Deliver(v, k);
    var emitted := Emitted(v.siblings[f.to], v.peers[f.to], Handled(v, f).actions);
    SameBoard(v.devices, f.to);
    RepliesAfter(v.flight, k, emitted);
    assert SameTopology(w, r);
  }

  lemma SameBoard(devices: seq<Local>, d: nat)
    requires d < |devices|
    ensures devices[d := devices[d]] == devices
  {}

  lemma RepliesAfter(flight: seq<Flight>, i: nat, emitted: seq<Flight>)
    requires i < |flight| && AllReplies(flight) && AllReplies(emitted)
    ensures AllReplies(flight[..i] + flight[i + 1..] + emitted)
  {}

  lemma EmitsReplies(v: World, f: Flight)
    requires Connects(v) && IsReply(f) && f.to < |v.devices|
    ensures var emitted := Emitted(v.siblings[f.to], v.peers[f.to], Handled(v, f).actions);
            AllReplies(emitted)
  {
    var l := v.devices[f.to];
    if l.role.Forwarder? {
      if f.FromPeer? { ResponseHandled(v, f); } else { WinnerHandled(v, f); }
    } else {
      assert Handled(v, f).actions == [];
    }
  }

  lemma {:induction false} CirclesLong(w: World, c: seq<nat>, s: seq<nat>, v: World, k: nat) returns (choices: seq<nat>)
    requires IsLoop(w, c, s) && Circling(w, c, s, v)
    ensures IsFlood(v, choices) && |choices| == k
    decreases k
  {
    choices := [];
    if k > 0 {
      var i := CirclesOn(w, c, s, v);
      var rest := CirclesLong(w, c, s, Deliver(v, i), k - 1);
      FloodCons(v, i, rest);
      choices := [i] + rest;
    }
  }

  // ---------- both together ----------

  ghost predicate BoundedBy(v: World, bound: nat) {
    forall choices :: IsFlood(v, choices) ==> |choices| <= bound
  }

  /** From every state of the boards, with any replies on their way, floods have a bound. */
  ghost predicate RepliesAlwaysEnd(w: World) {
    forall v :: SameTopology(w, v) && RepliesOnly(v) ==> exists bound :: BoundedBy(v, bound)
  }

  /** Floods of winners and responses end, from every state and in every delivery order, if and only if no response
      can come back to where it was: if and only if the links between the nodes close no cycle. */
  lemma RepliesEndExactlyWithoutCycles(w: World)
    requires Wired(w)
    ensures RepliesAlwaysEnd(w) <==> !HasClosedWalk(w)
  {
    if HasClosedWalk(w) {
      var c, s :| IsClosed(w, c, s);
      CycleHasNoBound(w, c, s);
    } else {
      var rank := RankExists(w);
      forall v | SameTopology(w, v) && RepliesOnly(v) ensures exists bound :: BoundedBy(v, bound) {
        SameTopologyRanks(w, v, rank);
        forall choices | IsFlood(v, choices) ensures |choices| <= Weight(Worth(v, rank), v.flight) {
          RepliesEnd(v, rank, choices);
        }
        assert BoundedBy(v, Weight(Worth(v, rank), v.flight));
      }
    }
  }

  lemma CycleHasNoBound(w: World, c: seq<nat>, s: seq<nat>)
    requires Wired(w) && IsClosed(w, c, s)
    ensures !RepliesAlwaysEnd(w)
  {
    var c1, s1 := MakeSimple(w, c, s);
    ShortEnough(w, c1, s1);
    var v := LoopWorld(w, c1, s1, [WinnerOn(s1, 0)]);
    assert Passes(w, c1[0], s1[0], c1[1]);
    assert OnLoop(c1, s1, v.flight[0]);
    assert Circling(w, c1, s1, v);
    forall bound: nat ensures !BoundedBy(v, bound) {
      var choices := CirclesLong(w, c1, s1, v, bound + 1);
    }
  }

  lemma ShortEnough(w: World, c: seq<nat>, s: seq<nat>)
    requires Wired(w) && IsClosed(w, c, s) && IsSimple(c, s)
    ensures |s| < MAX_BOARDS
  {
    forall i | 0 <= i < |s| ensures c[..|s|][i] < |w.devices| { assert Passes(w, c[i], s[i], c[i + 1]); }
    DistinctIsShort(c[..|s|], Below(|w.devices|));
  }
}
