/** Winners and responses that answer a gateway request, and two states from which they go on and on: around a board at
    distance 1, which answers every winner with the same response, and, without any such board, with distances that rise
    on every way round. ReplyTopologies.dfy proves exactly on which topologies such floods exist. */
module ResponseFlooding {
  import opened Bits
  import opened Flooding
  import opened Networks
  import opened Roles
  import RoutingTables

  predicate IsReply(f: Flight) {
    if f.FromSibling? then f.sibl.GatewayWinner? else f.peer.GatewayResponse?
  }

  // ---------- a flood that does not end ----------

  function At(dtr: U32, isLocalRoot: bool, network: Network): Local {
    Local(Forwarder(ForwarderState(network, network, isLocalRoot, true, WithNetwork, dtr)), network)
  }

  /** Two nodes joined by two links, boards 0 and 1 of one and boards 2 and 3 of the other. */
  function TwoLinks(a: Network, b: Network, flight: Flight): World {
    World([At(1, true, a), At(4, true, a), At(2, true, b), At(3, false, b)], [1, 2, 1, 2],
          [[1], [0], [3], [2]], [[2], [3], [0], [1]], [flight])
  }

  lemma OneFlight(w: World, f: Flight, next: Flight)
    requires Connects(w) && w.flight == [f] && f.to < |w.devices|
    requires Handled(w, f).local == w.devices[f.to]
    requires Emitted(w.siblings[f.to], w.peers[f.to], Handled(w, f).actions) == [next]
    ensures Deliver(w, 0) == w.(flight := [next])
  {
    assert w.devices[f.to := w.devices[f.to]] == w.devices;
  }

  lemma ResponseTells(s: ForwarderState, o: U8, responder: Network, dtr: U32, siblings: seq<nat>, peers: seq<nat>)
    ensures var (next, actions) := OnGatewayResponse(s, o, responder, dtr);
            Emitted(siblings, peers, actions)
            == if actions == [] then [] else ToSiblings(siblings, GatewayWinner(responder, next.dtr))
  {
    var (next, actions) := OnGatewayResponse(s, o, responder, dtr);
    if actions != [] {
      var tell := Tell(GatewayWinner(responder, next.dtr));
      assert actions == [Edit(RoutingTables.AddRoute(NONE, o))] + [tell];
      OneEmission(siblings, peers, tell);
      EditsEmitNothing(siblings, peers, [Edit(RoutingTables.AddRoute(NONE, o))], [tell]);
    }
  }

  lemma WinnerAnswers(s: ForwarderState, dtr: U32, siblings: seq<nat>, peers: seq<nat>)
    ensures var (next, actions) := OnGatewayWinner(s, dtr);
            Emitted(siblings, peers, actions) == ToPeers(peers, GatewayResponse(next.nodeNetwork, next.dtr))
  {
    var (next, actions) := OnGatewayWinner(s, dtr);
    OneEmission(siblings, peers, actions[0]);
  }

  /** A winner is taken, unless at distance 1, and answered to the peer. */
  lemma WinnerHandled(w: World, f: Flight)
    requires Connects(w) && f.to < |w.devices| && w.devices[f.to].role.Forwarder? && IsReply(f) && f.FromSibling?
    ensures var (next, actions) := OnGatewayWinner(w.devices[f.to].role.fwd, f.sibl.winnerDtr);
            && Handled(w, f) == WithForwarder(w.devices[f.to], (next, actions))
            && Emitted(w.siblings[f.to], w.peers[f.to], actions)
               == ToPeers(w.peers[f.to], GatewayResponse(next.nodeNetwork, next.dtr))
  {
    WinnerAnswers(w.devices[f.to].role.fwd, f.sibl.winnerDtr, w.siblings[f.to], w.peers[f.to]);
  }

  /** A response is refused, or taken and told to the siblings. */
  lemma ResponseHandled(w: World, f: Flight)
    requires Connects(w) && f.to < |w.devices| && w.devices[f.to].role.Forwarder? && IsReply(f) && f.FromPeer?
    ensures var s, responder, dtr := w.devices[f.to].role.fwd, f.peer.responder, f.peer.responseDtr;
            var (next, actions) := OnGatewayResponse(s, w.orientations[f.to], responder, dtr);
            && Handled(w, f) == WithForwarder(w.devices[f.to], (next, actions))
            && Emitted(w.siblings[f.to], w.peers[f.to], actions)
               == if actions == [] then [] else ToSiblings(w.siblings[f.to], GatewayWinner(responder, next.dtr))
  {
    ResponseTells(w.devices[f.to].role.fwd, w.orientations[f.to], f.peer.responder, f.peer.responseDtr,
                  w.siblings[f.to], w.peers[f.to]);
  }

  function FirstWinner(b: Network): Flight {
    FromSibling(0, GatewayWinner(b, 4))
  }

  function FirstResponse(a: Network): Flight {
    FromPeer(2, GatewayResponse(a, 1))
  }

  function SecondWinner(a: Network): Flight {
    FromSibling(3, GatewayWinner(a, 2))
  }

  function SecondResponse(b: Network): Flight {
    FromPeer(1, GatewayResponse(b, 3))
  }

  lemma FirstDelivery(a: Network, b: Network)
    ensures var w := TwoLinks(a, b, FirstWinner(b));
            Connects(w) && Deliver(w, 0) == TwoLinks(a, b, FirstResponse(a))
  {
    var w := TwoLinks(a, b, FirstWinner(b));
    WinnerHandled(w, FirstWinner(b));
    assert ToPeers([2], GatewayResponse(a, 1)) == [FirstResponse(a)];
    OneFlight(w, FirstWinner(b), FirstResponse(a));
  }

  lemma SecondDelivery(a: Network, b: Network)
    ensures var w := TwoLinks(a, b, FirstResponse(a));
            Connects(w) && Deliver(w, 0) == TwoLinks(a, b, SecondWinner(a))
  {
    var w := TwoLinks(a, b, FirstResponse(a));
    ResponseHandled(w, FirstResponse(a));
    assert ToSiblings([3], GatewayWinner(a, 2)) == [SecondWinner(a)];
    OneFlight(w, FirstResponse(a), SecondWinner(a));
  }

  lemma ThirdDelivery(a: Network, b: Network)
    ensures var w := TwoLinks(a, b, SecondWinner(a));
            Connects(w) && Deliver(w, 0) == TwoLinks(a, b, SecondResponse(b))
  {
    var w := TwoLinks(a, b, SecondWinner(a));
    WinnerHandled(w, SecondWinner(a));
    assert ToPeers([1], GatewayResponse(b, 3)) == [SecondResponse(b)];
    OneFlight(w, SecondWinner(a), SecondResponse(b));
  }

  lemma FourthDelivery(a: Network, b: Network)
    ensures var w := TwoLinks(a, b, SecondResponse(b));
            Connects(w) && Deliver(w, 0) == TwoLinks(a, b, FirstWinner(b))
  {
    var w := TwoLinks(a, b, SecondResponse(b));
    ResponseHandled(w, SecondResponse(b));
    assert ToSiblings([0], GatewayWinner(b, 4)) == [FirstWinner(b)];
    OneFlight(w, SecondResponse(b), FirstWinner(b));
  }

  /** A winner at the board at distance 1, its response, the winner that this starts, and the response to that: four
      deliveries later the network is in the same state. */
  lemma FourDeliveriesReturn(a: Network, b: Network)
    ensures var w := TwoLinks(a, b, FirstWinner(b));
            IsFlood(w, [0, 0, 0, 0]) && AfterFlood(w, [0, 0, 0, 0]) == w
  {
    FirstDelivery(a, b);
    SecondDelivery(a, b);
    ThirdDelivery(a, b);
    FourthDelivery(a, b);
    FloodCons(TwoLinks(a, b, SecondResponse(b)), 0, []);
    FloodCons(TwoLinks(a, b, SecondWinner(a)), 0, [0]);
    FloodCons(TwoLinks(a, b, FirstResponse(a)), 0, [0, 0]);
    FloodCons(TwoLinks(a, b, FirstWinner(b)), 0, [0, 0, 0]);
  }

  lemma FloodCons(w: World, i: nat, rest: seq<nat>)
    requires Connects(w) && i < |w.flight| && IsFlood(Deliver(w, i), rest)
    ensures IsFlood(w, [i] + rest) && AfterFlood(w, [i] + rest) == AfterFlood(Deliver(w, i), rest)
  {
    assert ([i] + rest)[1..] == rest;
  }

  lemma {:induction false} FloodAppend(w: World, first: seq<nat>, rest: seq<nat>)
    requires IsFlood(w, first) && IsFlood(AfterFlood(w, first), rest)
    ensures IsFlood(w, first + rest) && AfterFlood(w, first + rest) == AfterFlood(AfterFlood(w, first), rest)
    decreases |first|
  {
    if first == [] {
      assert first + rest == rest;
    } else {
      assert (first + rest)[1..] == first[1..] + rest;
      FloodAppend(Deliver(w, first[0]), first[1..], rest);
    }
  }

  /** So there is no bound on the length of a flood of replies. */
  lemma {:induction false} RepliesNeedNotEnd(a: Network, b: Network, k: nat) returns (choices: seq<nat>)
    ensures IsFlood(TwoLinks(a, b, FirstWinner(b)), choices) && |choices| >= k
  {
    choices := [];
    if k > 0 {
      choices := RepliesNeedNotEnd(a, b, k - 1);
      FourDeliveriesReturn(a, b);
      FloodAppend(TwoLinks(a, b, FirstWinner(b)), [0, 0, 0, 0], choices);
      choices := [0, 0, 0, 0] + choices;
    }
  }

  // ---------- the same without a board at distance 1 ----------

  predicate AtOne(l: Local) {
    l.role.Forwarder? && l.role.fwd.dtr == 1
  }

  /** The two nodes of TwoLinks with other boards and other replies on their way. */
  function Linked(devices: seq<Local>, flight: seq<Flight>): World {
    World(devices, [1, 2, 1, 2], [[1], [0], [3], [2]], [[2], [3], [0], [1]], flight)
  }

  predicate IsLinked(devices: seq<Local>, flight: seq<Flight>) {
    |devices| == 4 && forall i :: 0 <= i < |flight| ==> flight[i].to < 4
  }

  function Response(to: nat, dtr: U32): Flight {
    FromPeer(to, GatewayResponse(NONE, dtr))
  }

  function Winner(to: nat, dtr: U32): Flight {
    FromSibling(to, GatewayWinner(NONE, dtr))
  }

  /** The sibling of each of the four boards, and the board at the far end of its link. */
  function Beside(d: nat): (r: nat)
    requires d < 4
    ensures r < 4
  {
    if d == 0 then 1 else if d == 1 then 0 else if d == 2 then 3 else 2
  }

  function Across(d: nat): (r: nat)
    requires d < 4
    ensures r < 4
  {
    if d < 2 then d + 2 else d - 2
  }

  lemma FourBoards(devices: seq<Local>, flight: seq<Flight>, d: nat)
    requires IsLinked(devices, flight) && d < 4
    ensures var w := Linked(devices, flight);
            Connects(w) && w.siblings[d] == [Beside(d)] && w.peers[d] == [Across(d)]
  {}

  lemma DeliverOne(w: World, i: nat, next: Flight)
    requires Connects(w) && i < |w.flight|
    requires Emitted(w.siblings[w.flight[i].to], w.peers[w.flight[i].to], Handled(w, w.flight[i]).actions) == [next]
    ensures Deliver(w, i) == w.(devices := w.devices[w.flight[i].to := Handled(w, w.flight[i]).local],
                                flight := w.flight[..i] + w.flight[i + 1..] + [next])
  {}

  /** Delivering the i-th reply leads from one state to the next. */
  predicate Steps(a: World, i: nat, b: World) {
    Connects(a) && i < |a.flight| && Deliver(a, i) == b
  }

  lemma {:induction false} FloodAlong(states: seq<World>, choices: seq<nat>)
    requires |states| == |choices| + 1
    requires forall k :: 0 <= k < |choices| ==> Steps(states[k], choices[k], states[k + 1])
    ensures IsFlood(states[0], choices) && AfterFlood(states[0], choices) == states[|choices|]
    decreases |choices|
  {
    if choices != [] {
      assert Steps(states[0], choices[0], states[1]);
      forall k | 0 <= k < |choices| - 1 ensures Steps(states[1..][k], choices[1..][k], states[1..][k + 1]) {
        assert Steps(states[k + 1], choices[k + 1], states[k + 2]);
      }
      FloodAlong(states[1..], choices[1..]);
    }
  }

  /** A response below the board's distance is accepted and told to its sibling. */
  lemma Accepts(devices: seq<Local>, flight: seq<Flight>, i: nat, d: nat, dtr: U32, root: bool, v: U32)
    requires IsLinked(devices, flight) && i < |flight| && d < 4 && flight[i] == Response(d, v)
    requires devices[d] == At(dtr, root, NONE) && v < dtr
    ensures Steps(Linked(devices, flight), i,
                  Linked(devices[d := At(v + 1, true, NONE)],
                         flight[..i] + flight[i + 1..] + [Winner(Beside(d), v + 1)]))
  {
    var w := Linked(devices, flight);
    FourBoards(devices, flight, d);
    ResponseHandled(w, flight[i]);
    assert ToSiblings([Beside(d)], GatewayWinner(NONE, v + 1)) == [Winner(Beside(d), v + 1)];
    DeliverOne(w, i, Winner(Beside(d), v + 1));
  }

  /** A winner is taken, unless at distance 1, and answered over the link. */
  lemma Answers(devices: seq<Local>, flight: seq<Flight>, i: nat, d: nat, dtr: U32, root: bool, v: U32)
    requires IsLinked(devices, flight) && i < |flight| && d < 4 && flight[i] == Winner(d, v)
    requires devices[d] == At(dtr, root, NONE) && dtr != 1 && v + 1 < TWO32
    ensures Steps(Linked(devices, flight), i,
                  Linked(devices[d := At(v + 1, false, NONE)],
                         flight[..i] + flight[i + 1..] + [Response(Across(d), v + 1)]))
  {
    var w := Linked(devices, flight);
    FourBoards(devices, flight, d);
    WinnerHandled(w, flight[i]);
    assert ToPeers([Across(d)], GatewayResponse(NONE, v + 1)) == [Response(Across(d), v + 1)];
    DeliverOne(w, i, Response(Across(d), v + 1));
  }

  /** The boards in the order in which a response to board `f` meets them, and where in this order a board is. */
  function Met(f: nat, j: nat): (d: nat)
    requires f < 2 && j < 4
    ensures d < 4 && Place(f, d) == j
  {
    if j == 0 then f else if j == 1 then 1 - f else if j == 2 then 3 - f else f + 2
  }

  function Place(f: nat, d: nat): (j: nat)
    requires f < 2 && d < 4
    ensures j < 4
  {
    if d == f then 0 else if d == 1 - f then 1 else if d == 3 - f then 2 else 3
  }

  /** So that no distance wraps. */
  const LADDER_TOP: nat := TWO32 - 8

  /** The board at place p of the q-th round once the response has met it, and before. */
  function MetAt(q: nat, p: nat): Local
    requires q < LADDER_TOP && p < 4
  {
    At(q + 3 + p, p % 2 == 0, NONE)
  }

  function NotMetAt(q: nat, p: nat): Local
    requires q < LADDER_TOP && p < 4
  {
    At(if p % 2 == 0 then q + 3 + p else q + 1 + p, p % 2 == 1, NONE)
  }

  /** The boards after j deliveries of the q-th round. */
  function Climbing(q: nat, j: nat): (r: seq<Local>)
    requires q < LADDER_TOP && j <= 4
    ensures |r| == 4
  {
    seq(4, d requires 0 <= d < 4 =>
             var p := Place(q % 2, d); if p < j then MetAt(q, p) else NotMetAt(q, p))
  }

  function Waiting(q: nat): (r: seq<Flight>)
    requires q < LADDER_TOP
    ensures |r| == 3
  {
    [Response((q + 1) % 2, q + 3), Response(q % 2, q + 4), Response((q + 1) % 2, q + 5)]
  }

  /** The reply that goes round. */
  function Climber(q: nat, j: nat): Flight
    requires q < LADDER_TOP && j < 4
  {
    if j % 2 == 0 then Response(Met(q % 2, j), q + 2 + j) else Winner(Met(q % 2, j), q + 2 + j)
  }

  function Flying(q: nat, j: nat): (r: seq<Flight>)
    requires q < LADDER_TOP && j < 4
    ensures |r| == 4
  {
    if j == 0 then [Climber(q, 0)] + Waiting(q) else Waiting(q) + [Climber(q, j)]
  }

  /** No board is at distance 1, and four responses follow each other round the links, two each way: after n deliveries,
      four for each round. */
  function Ladder(n: nat): World
    requires n / 4 < LADDER_TOP
  {
    Linked(Climbing(n / 4, n % 4), Flying(n / 4, n % 4))
  }

  lemma LadderHasNoOnes(n: nat)
    requires n / 4 < LADDER_TOP
    ensures forall d :: 0 <= d < 4 ==> !AtOne(Ladder(n).devices[d])
  {}

  lemma OneMet(q: nat, j: nat)
    requires q < LADDER_TOP && j < 4
    ensures var d := Met(q % 2, j);
            Climbing(q, j)[d] == NotMetAt(q, j) && Climbing(q, j)[d := MetAt(q, j)] == Climbing(q, j + 1)
  {
    var d := Met(q % 2, j);
    forall e | 0 <= e < 4 && e != d ensures Place(q % 2, e) != j {}
  }

  lemma RoundDone(q: nat)
    requires q + 1 < LADDER_TOP
    ensures Climbing(q, 4) == Climbing(q + 1, 0)
  {
    assert (q + 1) % 2 == 1 - q % 2;
    forall d | 0 <= d < 4 ensures MetAt(q, Place(q % 2, d)) == NotMetAt(q + 1, Place(1 - q % 2, d)) {}
  }

  /** Which reply is delivered: the first, which then goes on as the last. */
  function Choice(n: nat): nat {
    if n % 4 == 0 then 0 else 3
  }

  lemma Flies(q: nat, j: nat)
    requires q + 1 < LADDER_TOP && j < 4
    ensures var i, flight := if j == 0 then 0 else 3, Flying(q, j);
            && IsLinked(Climbing(q, j), flight) && flight[i] == Climber(q, j)
            && flight[..i] + flight[i + 1..] == Waiting(q)
  {}

  /** What the reply that goes round becomes: the next reply of the round, or the last response of the next round. */
  function Onward(q: nat, j: nat): Flight
    requires q < LADDER_TOP && j < 4
  {
    var d := Met(q % 2, j);
    if j % 2 == 0 then Winner(Beside(d), q + 3 + j) else Response(Across(d), q + 3 + j)
  }

  lemma GoesOnward(q: nat, j: nat)
    requires q + 1 < LADDER_TOP && j < 4
    ensures Waiting(q) + [Onward(q, j)] == if j == 3 then Flying(q + 1, 0) else Flying(q, j + 1)
  {
    assert j < 3 ==> Onward(q, j) == Climber(q, j + 1);
    assert (q + 2) % 2 == q % 2;
  }

  lemma ResponseInRound(q: nat, j: nat)
    requires q + 1 < LADDER_TOP && j < 4 && j % 2 == 0
    ensures Steps(Linked(Climbing(q, j), Flying(q, j)), if j == 0 then 0 else 3,
                  Linked(Climbing(q, j + 1), Waiting(q) + [Onward(q, j)]))
  {
    Flies(q, j);
    OneMet(q, j);
    Accepts(Climbing(q, j), Flying(q, j), if j == 0 then 0 else 3, Met(q % 2, j), q + 3 + j, false, q + 2 + j);
  }

  lemma WinnerInRound(q: nat, j: nat)
    requires q + 1 < LADDER_TOP && j < 4 && j % 2 == 1
    ensures Steps(Linked(Climbing(q, j), Flying(q, j)), 3, Linked(Climbing(q, j + 1), Waiting(q) + [Onward(q, j)]))
  {
    Flies(q, j);
    OneMet(q, j);
    Answers(Climbing(q, j), Flying(q, j), 3, Met(q % 2, j), q + 1 + j, true, q + 2 + j);
  }

  lemma OneMore(n: nat)
    ensures n % 4 == 3 ==> (n + 1) / 4 == n / 4 + 1 && (n + 1) % 4 == 0
    ensures n % 4 != 3 ==> (n + 1) / 4 == n / 4 && (n + 1) % 4 == n % 4 + 1
  {}

  lemma LadderSteps(n: nat)
    requires n / 4 + 1 < LADDER_TOP
    ensures Steps(Ladder(n), Choice(n), Ladder(n + 1))
  {
    var q, j := n / 4, n % 4;
    if j % 2 == 0 { ResponseInRound(q, j); } else { WinnerInRound(q, j); }
    GoesOnward(q, j);
    OneMore(n);
    if j == 3 { RoundDone(q); }
  }

  /** Sixteen deliveries are four rounds: the same boards, all at distances four higher. */
  lemma SixteenDeliveriesRise(n: nat)
    requires n / 4 + 4 < LADDER_TOP
    ensures forall d :: 0 <= d < 4 ==>
              && Ladder(n + 16).devices[d].role.fwd.dtr == Ladder(n).devices[d].role.fwd.dtr + 4
              && Ladder(n + 16).devices[d].role.fwd.isLocalRoot == Ladder(n).devices[d].role.fwd.isLocalRoot
  {
    assert (n + 16) / 4 == n / 4 + 4 && (n + 16) % 4 == n % 4 && (n / 4 + 4) % 2 == (n / 4) % 2;
  }

  function LadderTo(n: nat): (states: seq<World>)
    requires n / 4 < LADDER_TOP
    ensures |states| == n + 1 && forall k :: 0 <= k <= n ==> k / 4 < LADDER_TOP && states[k] == Ladder(k)
  {
    seq(n + 1, k requires 0 <= k <= n => Ladder(k))
  }

  /** So without any board at distance 1 a flood can go on until the distances wrap. */
  lemma LadderGoesOn(n: nat) returns (choices: seq<nat>)
    requires n / 4 + 1 < LADDER_TOP
    ensures |choices| == n && IsFlood(Ladder(0), choices) && AfterFlood(Ladder(0), choices) == Ladder(n)
  {
    var states := LadderTo(n);
    choices := seq(n, k requires 0 <= k < n => Choice(k));
    forall k | 0 <= k < n ensures Steps(states[k], choices[k], states[k + 1]) { LadderSteps(k); }
    FloodAlong(states, choices);
  }
}
