/** The routing token and the replicated log where broadcasts are not atomic: a copy reaches one board after the other,
    other boards act meanwhile, and the sender's next broadcast waits until its copy is back. Still at most one board is
    inside its critical section, and the one inside has the whole log. Copies may overtake each other here, which those
    on the ring do not. Requests only matter where they reach the leader, which can happen at any time. */
module HopByHop {
  import opened Bits
  import opened Fifo
  import opened NodeSystem
  import opened ReplicatedLog
  import opened RingPositions
  import opened RoutingTables
  import opened Sync
  import opened TokenRing

  /** A board's broadcast: none, or a copy that the next `hops` boards have already. */
  datatype Way = Free | Sending(msg: Msg, hops: nat)

  datatype Hopper = Hopper(table: Table, version: nat, inside: bool, inbox: seq<Msg>, out: Way)

  /** `slot` is the leader's; `token` and `log` are history. */
  datatype Hops = Hops(boards: seq<Hopper>, slot: Slot, token: Place, log: seq<Op>)

  predicate HopShape(n: Hops) {
    2 <= |n.boards| <= 7
  }

  function Leader(n: Hops): nat
    requires HopShape(n)
  {
    |n.boards| - 1
  }

  function StartHops(size: nat): (n: Hops)
    requires 2 <= size <= 7
    ensures |n.boards| == size
    ensures forall b :: 0 <= b < size ==> n.boards[b] == Hopper(Init(size), 0, false, [], Free)
  {
    Hops(seq(size, _ => Hopper(Init(size), 0, false, [], Free)), EMPTY_SLOT, Nowhere, [])
  }

  // ---------- steps ----------

  function Put(n: Hops, b: nat, board: Hopper): Hops
    requires b < |n.boards|
  {
    n.(boards := n.boards[b := board])
  }

  /** The copy of board `s` goes on to one more board, or comes back. */
  function PassCopy(n: Hops, s: nat): (r: Hops)
    requires HopShape(n) && s < |n.boards| && n.boards[s].out.Sending?
    ensures |r.boards| == |n.boards|
  {
    var w := n.boards[s].out;
    if w.hops + 1 >= |n.boards| then Put(n, s, n.boards[s].(out := Free))
    else
      var d := Around(s, w.hops + 1, |n.boards|);
      Put(Put(n, s, n.boards[s].(out := Sending(w.msg, w.hops + 1))), d,
          Put(n, s, n.boards[s].(out := Sending(w.msg, w.hops + 1))).boards[d].(inbox := n.boards[d].inbox + [w.msg]))
  }

  /** Board `b` handles the first message in its inbox. */
  function TakeMessage(n: Hops, b: nat): (r: Hops)
    requires HopShape(n) && b < |n.boards| && n.boards[b].inbox != []
    ensures |r.boards| == |n.boards|
  {
    var m, rest := n.boards[b].inbox[0], n.boards[b].(inbox := n.boards[b].inbox[1..]);
    if m == Mine(ROUTING, b) then Put(n, b, rest.(inside := true)).(token := Held(b))
    else if m.Copy? then Put(n, b, rest.(table := m.table, version := m.version))
    else Put(n, b, rest)
  }

  /** The board inside edits its table and broadcasts it. */
  function EditTable(n: Hops, b: nat, op: Op): (r: Hops)
    requires b < |n.boards|
    ensures |r.boards| == |n.boards|
  {
    var table, version := Apply(n.boards[b].table, op), |n.log| + 1;
    Put(n, b, n.boards[b].(table := table, version := version, out := Sending(Copy(table, version), 0)))
      .(log := n.log + [op])
  }

  /** The board inside broadcasts its table as it is. */
  function Publish(n: Hops, b: nat): (r: Hops)
    requires b < |n.boards|
    ensures |r.boards| == |n.boards|
  {
    var board := n.boards[b];
    Put(n, b, board.(out := Sending(Copy(board.table, board.version), 0)))
  }

  /** The leader broadcasts the first grant of a round. */
  function IssueHop(n: Hops): (r: Hops)
    requires HopShape(n)
    ensures |r.boards| == |n.boards|
  {
    Put(n, Leader(n), n.boards[Leader(n)].(out := Sending(Token(Grant(ROUTING, FIRST)), 0))).(token := Flying(0))
  }

  /** The board inside leaves: a follower passes the token on, the leader ends the round. */
  function LeaveInside(n: Hops, b: nat): (r: Hops)
    requires HopShape(n) && b < |n.boards|
    ensures |r.boards| == |n.boards|
  {
    var left := Put(n, b, n.boards[b].(inside := false));
    if b == Leader(n) then
      var (slot, issue) := OnRoundEnd(n.slot);
      if issue then IssueHop(left.(slot := slot)) else left.(slot := slot, token := Nowhere)
    else
      var grant := Token(Grant(ROUTING, NextDevice(Orientation(b), |n.boards|)));
      Put(left, b, left.boards[b].(out := Sending(grant, 0))).(token := Flying(b + 1))
  }

  /** A request reaches the leader. */
  function AskLeader(n: Hops): (r: Hops)
    requires HopShape(n)
    ensures |r.boards| == |n.boards|
  {
    var (slot, issue) := OnRequest(n.slot);
    if issue then IssueHop(n.(slot := slot)) else n.(slot := slot)
  }

  datatype HopStep =
    | PassStep(src: nat)
    | TakeStep(board: nat)
    | EditStep(board: nat, op: Op)
    | PublishStep(board: nat)
    | LeaveStep(board: nat)
    | AskStep

  predicate HopEnabled(n: Hops, step: HopStep) {
    && HopShape(n)
    && match step
       case PassStep(s) => s < |n.boards| && n.boards[s].out.Sending?
       case TakeStep(b) => b < |n.boards| && !n.boards[b].inside && n.boards[b].inbox != []
       case EditStep(b, _) => b < |n.boards| && n.boards[b].inside && n.boards[b].out.Free?
       case PublishStep(b) => b < |n.boards| && n.boards[b].inside && n.boards[b].out.Free?
       case LeaveStep(b) => b < |n.boards| && n.boards[b].inside && n.boards[b].out.Free?
       case AskStep => n.slot.tokenOut || n.boards[Leader(n)].out.Free?
  }

  function NextHop(n: Hops, step: HopStep): (r: Hops)
    requires HopEnabled(n, step)
    ensures |r.boards| == |n.boards|
  {
    match step
    case PassStep(s) => PassCopy(n, s)
    case TakeStep(b) => TakeMessage(n, b)
    case EditStep(b, op) => EditTable(n, b, op)
    case PublishStep(b) => Publish(n, b)
    case LeaveStep(b) => LeaveInside(n, b)
    case AskStep => AskLeader(n)
  }

  predicate IsHopRun(n: Hops, steps: seq<HopStep>)
    decreases |steps|
  {
    steps == [] || (HopEnabled(n, steps[0]) && IsHopRun(NextHop(n, steps[0]), steps[1..]))
  }

  function AfterHops(n: Hops, steps: seq<HopStep>): (r: Hops)
    requires IsHopRun(n, steps)
    ensures |r.boards| == |n.boards|
    decreases |steps|
  {
    if steps == [] then n else AfterHops(NextHop(n, steps[0]), steps[1..])
  }

  // ---------- what every step keeps ----------

  /** The boards before and after `b` on the ring. */
  function Before(b: nat, size: nat): (r: nat)
    requires b < size
    ensures r < size
  {
    if b == 0 then size - 1 else b - 1
  }

  function Beyond(b: nat, size: nat): (r: nat)
    requires b < size
    ensures r < size && Before(r, size) == b
  {
    if b + 1 == size then 0 else b + 1
  }

  /** The grants for board `b` that it has not handled: in its inbox, or just sent by the board before it. */
  function GrantsFor(boards: seq<Hopper>, b: nat): nat
    requires b < |boards| <= 7
  {
    Count(boards[b].inbox, Mine(ROUTING, b))
    + if boards[Before(b, |boards|)].out == Sending(Mine(ROUTING, b), 0) then 1 else 0
  }

  /** What is under way: a grant for the board beyond, or the holder's table, which holds the whole log. */
  predicate OutOk(out: Way, s: nat, size: nat, token: Place, log: seq<Op>)
    requires s < size <= 7
  {
    out.Sending? ==>
      && out.hops < size
      && match out.msg
         case Token(_) => out.msg == Mine(ROUTING, Beyond(s, size))
         case Copy(table, version) => token == Held(s) && version == |log| && IsPrefix(table, version, log, size)
         case Event(_) => false
  }

  /** The copy of board `s` has not reached board `b`. */
  predicate Awaits(boards: seq<Hopper>, s: nat, b: nat)
    requires s < |boards| && b < |boards|
  {
    && s != b && boards[s].out.Sending? && boards[s].out.msg.Copy?
    && Distance(s, b, |boards|) > boards[s].out.hops
  }

  predicate AwaitsHolder(boards: seq<Hopper>, token: Place, b: nat)
    requires b < |boards|
  {
    token.Held? && token.holder < |boards| && Awaits(boards, token.holder, b)
  }

  predicate HopperOk(board: Hopper, b: nat, size: nat, token: Place, log: seq<Op>, awaits: bool)
    requires b < size <= 7
  {
    && (board.inside <==> token == Held(b))
    && IsPrefix(board.table, board.version, log, size) && CopiesArePrefixes(board.inbox, log, size)
    && Ascending(board.inbox, board.version) && (awaits || Drained(board.inbox, board.version) == |log|)
    && QuietBehind(board.inbox, Mine(ROUTING, b)) && (token == Held(b) ==> Quiet(board.inbox))
  }

  predicate TokenPlaced(slot: Slot, token: Place, size: nat) {
    && (slot.tokenOut <==> token != Nowhere) && (slot.pending > 0 ==> slot.tokenOut)
    && (token.Flying? ==> token.to < size) && (token.Held? ==> token.holder < size)
  }

  predicate GrantsOk(boards: seq<Hopper>, token: Place) {
    |boards| <= 7 && forall b :: 0 <= b < |boards| ==> GrantsFor(boards, b) == if token == Flying(b) then 1 else 0
  }

  predicate HopOk(n: Hops) {
    && HopShape(n) && TokenPlaced(n.slot, n.token, |n.boards|) && GrantsOk(n.boards, n.token)
    && (forall s :: 0 <= s < |n.boards| ==> OutOk(n.boards[s].out, s, |n.boards|, n.token, n.log))
    && (forall b :: 0 <= b < |n.boards| ==>
          HopperOk(n.boards[b], b, |n.boards|, n.token, n.log, AwaitsHolder(n.boards, n.token, b)))
  }

  // ---------- passing a copy on ----------

  lemma {:induction false} DrainedAtMost(q: seq<Msg>, version: nat, log: seq<Op>, gateway: U8)
    requires CopiesArePrefixes(q, log, gateway) && version <= |log|
    ensures Drained(q, version) <= |log|
  {
    if q != [] { DrainedAtMost(q[1..], if q[0].Copy? then q[0].version else version, log, gateway); }
  }

  /** Where the next copy of `s` arrives, and for whom it changes whether a copy is awaited. */
  lemma PassIs(n: Hops, s: nat)
    requires HopShape(n) && s < |n.boards| && n.boards[s].out.Sending? && n.boards[s].out.hops + 1 < |n.boards|
    ensures var w, size := n.boards[s].out, |n.boards|;
            var d := Around(s, w.hops + 1, size);
            && d != s && Distance(s, d, size) == w.hops + 1 && (d == Beyond(s, size) <==> w.hops == 0)
            && PassCopy(n, s).boards == n.boards[s := n.boards[s].(out := Sending(w.msg, w.hops + 1))]
                                               [d := n.boards[d].(inbox := n.boards[d].inbox + [w.msg])]
            && forall b :: 0 <= b < size && b != d && b != s ==>
                 (Distance(s, b, size) > w.hops <==> Distance(s, b, size) > w.hops + 1)
  {
    var w, size := n.boards[s].out, |n.boards|;
    AroundIs(s, w.hops + 1, size);
  }

  lemma PassKeepsGrants(n: Hops, s: nat)
    requires HopOk(n) && s < |n.boards| && n.boards[s].out.Sending? && n.boards[s].out.hops + 1 < |n.boards|
    ensures GrantsOk(PassCopy(n, s).boards, n.token)
  {
    PassIs(n, s);
    forall b | 0 <= b < |n.boards| ensures GrantsFor(PassCopy(n, s).boards, b) == GrantsFor(n.boards, b) {
      PassKeepsGrantsFor(n, s, b);
    }
  }

  lemma PassKeepsGrantsFor(n: Hops, s: nat, b: nat)
    requires HopShape(n) && s < |n.boards| && OutOk(n.boards[s].out, s, |n.boards|, n.token, n.log) && b < |n.boards|
    requires n.boards[s].out.Sending? && n.boards[s].out.hops + 1 < |n.boards|
    ensures GrantsFor(PassCopy(n, s).boards, b) == GrantsFor(n.boards, b)
  {
    PassIs(n, s);
    CountAppend(n.boards[b].inbox, Mine(ROUTING, b), n.boards[s].out.msg);
  }

  /** The board that the copy arrives at. */
  lemma ArrivalKeeps(board: Hopper, d: nat, size: nat, token: Place, log: seq<Op>, awaits: bool, m: Msg)
    requires d < size <= 7 && HopperOk(board, d, size, token, log, awaits) && !m.Event?
    requires m.Copy? ==>
               && m.version == |log| && IsPrefix(m.table, m.version, log, size)
               && token != Held(d) && Count(board.inbox, Mine(ROUTING, d)) == 0
    ensures HopperOk(board.(inbox := board.inbox + [m]), d, size, token, log, awaits && !m.Copy?)
  {
    DrainedAtMost(board.inbox, board.version, log, size);
    AscendingAppend(board.inbox, board.version, m);
    DrainedAppend(board.inbox, board.version, m);
    QuietBehindAppend(board.inbox, Mine(ROUTING, d), m);
  }

  /** Whoever awaits the holder's copy goes on waiting until it arrives. */
  lemma PassKeepsAwaits(n: Hops, s: nat, b: nat)
    requires HopOk(n) && s < |n.boards| && n.boards[s].out.Sending? && n.boards[s].out.hops + 1 < |n.boards|
    requires b < |n.boards|
    ensures var w := n.boards[s].out;
            var d := Around(s, w.hops + 1, |n.boards|);
            AwaitsHolder(PassCopy(n, s).boards, n.token, b)
            <==> AwaitsHolder(n.boards, n.token, b) && !(b == d && w.msg.Copy?)
  {
    PassIs(n, s);
    assert OutOk(n.boards[s].out, s, |n.boards|, n.token, n.log);
  }

  lemma PassKeepsBoard(n: Hops, s: nat, b: nat)
    requires HopOk(n) && s < |n.boards| && n.boards[s].out.Sending? && n.boards[s].out.hops + 1 < |n.boards|
    requires b < |n.boards|
    ensures var r := PassCopy(n, s);
            HopperOk(r.boards[b], b, |n.boards|, n.token, n.log, AwaitsHolder(r.boards, n.token, b))
  {
    PassIs(n, s);
    PassKeepsAwaits(n, s, b);
    assert OutOk(n.boards[s].out, s, |n.boards|, n.token, n.log);
    if b == Around(s, n.boards[s].out.hops + 1, |n.boards|) {
      assert GrantsFor(n.boards, b) == if n.token == Flying(b) then 1 else 0;
      ArrivalKeeps(n.boards[b], b, |n.boards|, n.token, n.log, AwaitsHolder(n.boards, n.token, b), n.boards[s].out.msg);
    }
  }

  /** The copy is back: all other boards have it. */
  lemma BackKeeps(n: Hops, s: nat)
    requires HopOk(n) && s < |n.boards| && n.boards[s].out.Sending? && n.boards[s].out.hops + 1 >= |n.boards|
    ensures HopOk(PassCopy(n, s))
  {
    var r := PassCopy(n, s);
    assert OutOk(n.boards[s].out, s, |n.boards|, n.token, n.log);
    forall b | 0 <= b < |n.boards| ensures GrantsFor(r.boards, b) == GrantsFor(n.boards, b) {}
    forall b | 0 <= b < |n.boards|
      ensures HopperOk(r.boards[b], b, |n.boards|, n.token, n.log, AwaitsHolder(r.boards, n.token, b))
    {
      assert HopperOk(n.boards[b], b, |n.boards|, n.token, n.log, AwaitsHolder(n.boards, n.token, b));
    }
  }

  lemma PassKeeps(n: Hops, s: nat)
    requires HopOk(n) && HopEnabled(n, PassStep(s))
    ensures HopOk(PassCopy(n, s))
  {
    if n.boards[s].out.hops + 1 >= |n.boards| {
      BackKeeps(n, s);
    } else {
      PassIs(n, s);
      PassKeepsGrants(n, s);
      assert OutOk(n.boards[s].out, s, |n.boards|, n.token, n.log);
      forall b | 0 <= b < |n.boards|
        ensures HopperOk(PassCopy(n, s).boards[b], b, |n.boards|, n.token, n.log,
                         AwaitsHolder(PassCopy(n, s).boards, n.token, b))
      {
        PassKeepsBoard(n, s, b);
      }
    }
  }

  // ---------- taking a message ----------

  /** Who awaits a copy depends on what is under way alone. */
  lemma SameOuts(n: Hops, r: Hops, b: nat)
    requires HopShape(n) && |r.boards| == |n.boards| && b < |n.boards|
    requires forall s :: 0 <= s < |n.boards| ==> r.boards[s].out == n.boards[s].out
    ensures AwaitsHolder(r.boards, n.token, b) <==> AwaitsHolder(n.boards, n.token, b)
  {}

  lemma OtherTaken(board: Hopper, b: nat, size: nat, token: Place, log: seq<Op>, awaits: bool)
    requires b < size <= 7 && HopperOk(board, b, size, token, log, awaits)
    requires board.inbox != [] && board.inbox[0] != Mine(ROUTING, b)
    ensures var m, rest := board.inbox[0], board.(inbox := board.inbox[1..]);
            HopperOk(if m.Copy? then rest.(table := m.table, version := m.version) else rest,
                     b, size, token, log, awaits)
  {}

  lemma OtherTakeKeeps(n: Hops, b: nat)
    requires HopOk(n) && HopEnabled(n, TakeStep(b)) && n.boards[b].inbox[0] != Mine(ROUTING, b)
    ensures HopOk(TakeMessage(n, b))
  {
    var r := TakeMessage(n, b);
    OtherTaken(n.boards[b], b, |n.boards|, n.token, n.log, AwaitsHolder(n.boards, n.token, b));
    forall a | 0 <= a < |n.boards| ensures GrantsFor(r.boards, a) == GrantsFor(n.boards, a) {}
    forall a | 0 <= a < |n.boards|
      ensures HopperOk(r.boards[a], a, |n.boards|, n.token, n.log, AwaitsHolder(r.boards, n.token, a))
    {
      SameOuts(n, r, a);
      assert HopperOk(n.boards[a], a, |n.boards|, n.token, n.log, AwaitsHolder(n.boards, n.token, a));
    }
  }

  /** The board enters with an inbox in which no copy is left, and no copy is under way. */
  lemma GrantTaken(board: Hopper, b: nat, size: nat, log: seq<Op>)
    requires b < size <= 7 && HopperOk(board, b, size, Flying(b), log, false)
    requires board.inbox != [] && board.inbox[0] == Mine(ROUTING, b)
    ensures HopperOk(board.(inbox := board.inbox[1..], inside := true), b, size, Held(b), log, false)
  {
    QuietIsQuietBehind(board.inbox[1..], Mine(ROUTING, b));
  }

  lemma GrantIsFlying(n: Hops, b: nat)
    requires HopOk(n) && HopEnabled(n, TakeStep(b)) && n.boards[b].inbox[0] == Mine(ROUTING, b)
    ensures n.token == Flying(b) && Count(n.boards[b].inbox[1..], Mine(ROUTING, b)) == 0
    ensures n.boards[Before(b, |n.boards|)].out != Sending(Mine(ROUTING, b), 0)
  {
    assert GrantsFor(n.boards, b) == if n.token == Flying(b) then 1 else 0;
  }

  lemma GrantTakeKeeps(n: Hops, b: nat)
    requires HopOk(n) && HopEnabled(n, TakeStep(b)) && n.boards[b].inbox[0] == Mine(ROUTING, b)
    ensures HopOk(TakeMessage(n, b))
  {
    var r := TakeMessage(n, b);
    GrantIsFlying(n, b);
    GrantTaken(n.boards[b], b, |n.boards|, n.log);
    forall a | 0 <= a < |n.boards| ensures GrantsFor(r.boards, a) == 0 {
      assert GrantsFor(n.boards, a) == if n.token == Flying(a) then 1 else 0;
    }
    forall s | 0 <= s < |n.boards| ensures OutOk(r.boards[s].out, s, |n.boards|, Held(b), n.log) {
      assert OutOk(n.boards[s].out, s, |n.boards|, n.token, n.log);
    }
    forall a | 0 <= a < |n.boards|
      ensures HopperOk(r.boards[a], a, |n.boards|, Held(b), n.log, AwaitsHolder(r.boards, Held(b), a))
    {
      assert HopperOk(n.boards[a], a, |n.boards|, n.token, n.log, false);
    }
  }

  // ---------- acting inside ----------

  /** The one inside has the whole log, and no copy is under way once its own is back. */
  lemma InsideIsCurrent(n: Hops, b: nat)
    requires HopOk(n) && b < |n.boards| && n.boards[b].inside
    ensures n.token == Held(b) && Quiet(n.boards[b].inbox) && n.boards[b].version == |n.log|
    ensures n.boards[b].table == Fold(Init(|n.boards|), n.log)
  {
    assert HopperOk(n.boards[b], b, |n.boards|, n.token, n.log, false);
    DrainedQuiet(n.boards[b].inbox, n.boards[b].version);
    assert n.log[..|n.log|] == n.log;
  }

  lemma NoCopyUnderWay(n: Hops, b: nat, s: nat)
    requires HopOk(n) && b < |n.boards| && n.boards[b].inside && n.boards[b].out.Free? && s < |n.boards|
    ensures n.boards[s].out.Sending? ==> n.boards[s].out.msg.Token?
  {
    InsideIsCurrent(n, b);
    assert OutOk(n.boards[s].out, s, |n.boards|, n.token, n.log);
  }

  lemma LongerLogKeepsHopper(board: Hopper, b: nat, size: nat, token: Place, log: seq<Op>, op: Op)
    requires b < size <= 7 && HopperOk(board, b, size, token, log, false)
    ensures HopperOk(board, b, size, token, log + [op], true)
  {
    LongerLogKeepsPrefix(board.table, board.version, log, op, size);
    forall i | 0 <= i < |board.inbox| && board.inbox[i].Copy?
      ensures IsPrefix(board.inbox[i].table, board.inbox[i].version, log + [op], size)
    {
      LongerLogKeepsPrefix(board.inbox[i].table, board.inbox[i].version, log, op, size);
    }
  }

  /** A holder's own board with the whole log. */
  lemma HolderOk(board: Hopper, b: nat, size: nat, log: seq<Op>)
    requires b < size <= 7 && board.inside && Quiet(board.inbox)
    requires board.version == |log| && board.table == Fold(Init(size), log)
    ensures HopperOk(board, b, size, Held(b), log, false) && IsPrefix(board.table, board.version, log, size)
  {
    assert log[..|log|] == log;
    QuietHasNoCopies(board.inbox, board.version, log, size);
    QuietIsQuietBehind(board.inbox, Mine(ROUTING, b));
  }

  /** Sending a copy takes no grant away. */
  lemma CopyKeepsGrants(n: Hops, b: nat, board: Hopper)
    requires HopOk(n) && b < |n.boards| && n.boards[b].out.Free? && board.inbox == n.boards[b].inbox
    requires board.out.Sending? && board.out.msg.Copy?
    ensures GrantsOk(n.boards[b := board], n.token)
  {
    forall a | 0 <= a < |n.boards| ensures GrantsFor(n.boards[b := board], a) == GrantsFor(n.boards, a) {}
  }

  lemma EditKeepsBoard(n: Hops, b: nat, op: Op, a: nat)
    requires HopOk(n) && HopEnabled(n, EditStep(b, op)) && a < |n.boards|
    ensures var r := EditTable(n, b, op);
            && OutOk(r.boards[a].out, a, |n.boards|, n.token, r.log)
            && HopperOk(r.boards[a], a, |n.boards|, n.token, r.log, AwaitsHolder(r.boards, n.token, a))
  {
    var r := EditTable(n, b, op);
    InsideIsCurrent(n, b);
    NoCopyUnderWay(n, b, a);
    FoldOneMore(|n.boards|, n.log, op);
    assert OutOk(n.boards[a].out, a, |n.boards|, n.token, n.log);
    if a == b {
      HolderOk(r.boards[b], b, |n.boards|, r.log);
    } else {
      assert HopperOk(n.boards[a], a, |n.boards|, n.token, n.log, AwaitsHolder(n.boards, n.token, a));
      LongerLogKeepsHopper(n.boards[a], a, |n.boards|, n.token, n.log, op);
    }
  }

  lemma FoldOneMore(gateway: U8, log: seq<Op>, op: Op)
    ensures Fold(Init(gateway), log + [op]) == Apply(Fold(Init(gateway), log), op)
  {
    assert (log + [op])[..|log|] == log;
  }

  lemma EditKeeps(n: Hops, b: nat, op: Op)
    requires HopOk(n) && HopEnabled(n, EditStep(b, op))
    ensures HopOk(EditTable(n, b, op))
  {
    CopyKeepsGrants(n, b, EditTable(n, b, op).boards[b]);
    forall a | 0 <= a < |n.boards|
      ensures OutOk(EditTable(n, b, op).boards[a].out, a, |n.boards|, n.token, EditTable(n, b, op).log)
      ensures HopperOk(EditTable(n, b, op).boards[a], a, |n.boards|, n.token, EditTable(n, b, op).log,
                       AwaitsHolder(EditTable(n, b, op).boards, n.token, a))
    {
      EditKeepsBoard(n, b, op, a);
    }
  }

  lemma PublishKeepsBoard(n: Hops, b: nat, a: nat)
    requires HopOk(n) && HopEnabled(n, PublishStep(b)) && a < |n.boards|
    ensures var r := Publish(n, b);
            && OutOk(r.boards[a].out, a, |n.boards|, n.token, n.log)
            && HopperOk(r.boards[a], a, |n.boards|, n.token, n.log, AwaitsHolder(r.boards, n.token, a))
  {
    InsideIsCurrent(n, b);
    NoCopyUnderWay(n, b, a);
    assert OutOk(n.boards[a].out, a, |n.boards|, n.token, n.log);
    if a == b {
      HolderOk(Publish(n, b).boards[b], b, |n.boards|, n.log);
    } else {
      assert HopperOk(n.boards[a], a, |n.boards|, n.token, n.log, AwaitsHolder(n.boards, n.token, a));
    }
  }

  lemma PublishKeeps(n: Hops, b: nat)
    requires HopOk(n) && HopEnabled(n, PublishStep(b))
    ensures HopOk(Publish(n, b))
  {
    CopyKeepsGrants(n, b, Publish(n, b).boards[b]);
    forall a | 0 <= a < |n.boards|
      ensures OutOk(Publish(n, b).boards[a].out, a, |n.boards|, n.token, n.log)
      ensures HopperOk(Publish(n, b).boards[a], a, |n.boards|, n.token, n.log,
                       AwaitsHolder(Publish(n, b).boards, n.token, a))
    {
      PublishKeepsBoard(n, b, a);
    }
  }

  // ---------- sending a grant ----------

  lemma GrantSent(boards: seq<Hopper>, token: Place, s: nat, board: Hopper)
    requires GrantsOk(boards, token) && !token.Flying? && s < |boards| && 2 <= |boards| && boards[s].out.Free?
    requires board.inbox == boards[s].inbox && board.out == Sending(Mine(ROUTING, Beyond(s, |boards|)), 0)
    ensures GrantsOk(boards[s := board], Flying(Beyond(s, |boards|)))
  {
    var sent := boards[s := board];
    forall b | 0 <= b < |boards| ensures GrantsFor(sent, b) == if b == Beyond(s, |boards|) then 1 else 0 {
      assert GrantsFor(boards, b) == 0;
    }
  }

  /** A board while no one is inside. */
  lemma OutsideOk(board: Hopper, b: nat, size: nat, token: Place, log: seq<Op>, other: Place, out: Way)
    requires b < size <= 7 && HopperOk(board, b, size, token, log, false) && !other.Held?
    ensures HopperOk(board.(inside := false, out := out), b, size, other, log, false)
  {}

  /** A board while no copy is under way and no other board than `s` is inside. */
  predicate IdleBut(board: Hopper, a: nat, s: nat, size: nat, token: Place, log: seq<Op>)
    requires a < size <= 7
  {
    && (board.out.Sending? ==> board.out.msg.Token?) && OutOk(board.out, a, size, token, log)
    && HopperOk(board, a, size, token, log, false) && (a != s ==> !board.inside)
  }

  /** Board `s` sends the grant for the board beyond it: nobody is inside, and no copy is under way. */
  lemma GrantGoesOut(n: Hops, r: Hops, s: nat)
    requires HopShape(n) && s < |n.boards| && r.log == n.log && TokenPlaced(r.slot, r.token, |n.boards|)
    requires GrantsOk(n.boards, n.token) && !n.token.Flying? && n.boards[s].out.Free?
    requires forall a :: 0 <= a < |n.boards| ==> IdleBut(n.boards[a], a, s, |n.boards|, n.token, n.log)
    requires r.token == Flying(Beyond(s, |n.boards|))
    requires var grant := Mine(ROUTING, Beyond(s, |n.boards|));
             r.boards == n.boards[s := n.boards[s].(inside := false, out := Sending(grant, 0))]
    ensures HopOk(r)
  {
    GrantSent(n.boards, n.token, s, r.boards[s]);
    forall a | 0 <= a < |n.boards|
      ensures HopperOk(r.boards[a], a, |n.boards|, r.token, n.log, AwaitsHolder(r.boards, r.token, a))
      ensures OutOk(r.boards[a].out, a, |n.boards|, r.token, n.log)
    {
      assert IdleBut(n.boards[a], a, s, |n.boards|, n.token, n.log);
      OutsideOk(n.boards[a], a, |n.boards|, n.token, n.log, r.token, r.boards[a].out);
    }
  }

  /** Only the board inside is inside, and every board has the whole log coming. */
  lemma AloneInside(n: Hops, b: nat, a: nat)
    requires HopOk(n) && b < |n.boards| && n.boards[b].inside && n.boards[b].out.Free? && a < |n.boards|
    ensures IdleBut(n.boards[a], a, b, |n.boards|, n.token, n.log)
  {
    InsideIsCurrent(n, b);
    NoCopyUnderWay(n, b, a);
    assert OutOk(n.boards[a].out, a, |n.boards|, n.token, n.log);
    assert HopperOk(n.boards[a], a, |n.boards|, n.token, n.log, AwaitsHolder(n.boards, n.token, a));
  }

  lemma FollowerLeaves(n: Hops, b: nat)
    requires HopOk(n) && HopEnabled(n, LeaveStep(b)) && b != Leader(n)
    ensures HopOk(LeaveInside(n, b))
  {
    InsideIsCurrent(n, b);
    NextBoard(b, |n.boards|);
    forall a | 0 <= a < |n.boards| ensures IdleBut(n.boards[a], a, b, |n.boards|, n.token, n.log) {
      AloneInside(n, b, a);
    }
    GrantGoesOut(n, LeaveInside(n, b), b);
  }

  lemma LeaderReissues(n: Hops)
    requires HopOk(n) && HopEnabled(n, LeaveStep(Leader(n))) && OnRoundEnd(n.slot).1
    ensures HopOk(LeaveInside(n, Leader(n)))
  {
    var b := Leader(n);
    InsideIsCurrent(n, b);
    forall a | 0 <= a < |n.boards| ensures IdleBut(n.boards[a], a, b, |n.boards|, n.token, n.log) {
      AloneInside(n, b, a);
    }
    GrantGoesOut(n, LeaveInside(n, b), b);
  }

  lemma RoundEnds(n: Hops)
    requires HopOk(n) && HopEnabled(n, LeaveStep(Leader(n))) && !OnRoundEnd(n.slot).1
    ensures HopOk(LeaveInside(n, Leader(n)))
  {
    var b, r := Leader(n), LeaveInside(n, Leader(n));
    InsideIsCurrent(n, b);
    forall a | 0 <= a < |n.boards| ensures GrantsFor(r.boards, a) == 0 { assert GrantsFor(n.boards, a) == 0; }
    forall a | 0 <= a < |n.boards|
      ensures HopperOk(r.boards[a], a, |n.boards|, Nowhere, n.log, AwaitsHolder(r.boards, Nowhere, a))
      ensures OutOk(r.boards[a].out, a, |n.boards|, Nowhere, n.log)
    {
      AloneInside(n, b, a);
      OutsideOk(n.boards[a], a, |n.boards|, n.token, n.log, Nowhere, n.boards[a].out);
    }
  }

  lemma AskKeeps(n: Hops)
    requires HopOk(n) && HopEnabled(n, AskStep)
    ensures HopOk(AskLeader(n))
  {
    if !n.slot.tokenOut {
      forall a | 0 <= a < |n.boards| ensures IdleBut(n.boards[a], a, Leader(n), |n.boards|, n.token, n.log) {
        assert OutOk(n.boards[a].out, a, |n.boards|, n.token, n.log);
        assert HopperOk(n.boards[a], a, |n.boards|, n.token, n.log, false);
      }
      GrantGoesOut(n, AskLeader(n), Leader(n));
    }
  }

  // ---------- runs ----------

  lemma HopKeeps(n: Hops, step: HopStep)
    requires HopOk(n) && HopEnabled(n, step)
    ensures HopOk(NextHop(n, step))
  {
    match step {
      case PassStep(s) => PassKeeps(n, s);
      case TakeStep(b) =>
        if n.boards[b].inbox[0] == Mine(ROUTING, b) { GrantTakeKeeps(n, b); } else { OtherTakeKeeps(n, b); }
      case EditStep(b, op) => EditKeeps(n, b, op);
      case PublishStep(b) => PublishKeeps(n, b);
      case LeaveStep(b) =>
        if b != Leader(n) { FollowerLeaves(n, b); }
        else if OnRoundEnd(n.slot).1 { LeaderReissues(n); }
        else { RoundEnds(n); }
      case AskStep => AskKeeps(n);
    }
  }

  lemma StartHopsIsOk(size: nat)
    requires 2 <= size <= 7
    ensures HopOk(StartHops(size))
  {
    var n := StartHops(size);
    forall b | 0 <= b < size ensures GrantsFor(n.boards, b) == 0 && HopperOk(n.boards[b], b, size, Nowhere, [], false) {
      assert Fold(Init(size), []) == Init(size);
    }
  }

  lemma {:induction false} HopRunKeeps(n: Hops, steps: seq<HopStep>)
    requires HopOk(n) && IsHopRun(n, steps)
    ensures HopOk(AfterHops(n, steps))
    decreases |steps|
  {
    if steps != [] {
      HopKeeps(n, steps[0]);
      HopRunKeeps(NextHop(n, steps[0]), steps[1..]);
    }
  }

  /** The grants that are yet to be acted on, on all boards up to `k`. */
  function GrantsUpTo(boards: seq<Hopper>, k: nat): nat
    requires k <= |boards| <= 7
  {
    if k == 0 then 0 else GrantsUpTo(boards, k - 1) + GrantsFor(boards, k - 1)
  }

  function InsideUpTo(boards: seq<Hopper>, k: nat): nat
    requires k <= |boards|
  {
    if k == 0 then 0 else InsideUpTo(boards, k - 1) + if boards[k - 1].inside then 1 else 0
  }

  lemma {:induction false} GrantCount(boards: seq<Hopper>, token: Place, k: nat)
    requires GrantsOk(boards, token) && k <= |boards|
    ensures GrantsUpTo(boards, k) == if token.Flying? && token.to < k then 1 else 0
  {
    if k > 0 {
      GrantCount(boards, token, k - 1);
      assert GrantsFor(boards, k - 1) == if token == Flying(k - 1) then 1 else 0;
    }
  }

  lemma {:induction false} InsideCount(boards: seq<Hopper>, token: Place, k: nat)
    requires k <= |boards| && forall b :: 0 <= b < |boards| ==> (boards[b].inside <==> token == Held(b))
    ensures InsideUpTo(boards, k) == if token.Held? && token.holder < k then 1 else 0
  {
    if k > 0 { InsideCount(boards, token, k - 1); }
  }

  lemma InsideHolds(n: Hops, b: nat)
    requires HopOk(n) && b < |n.boards|
    ensures n.boards[b].inside <==> n.token == Held(b)
  {
    assert HopperOk(n.boards[b], b, |n.boards|, n.token, n.log, AwaitsHolder(n.boards, n.token, b));
  }

  lemma TokenCounts(n: Hops)
    requires HopOk(n)
    ensures GrantsUpTo(n.boards, |n.boards|) + InsideUpTo(n.boards, |n.boards|) == if n.slot.tokenOut then 1 else 0
  {
    GrantCount(n.boards, n.token, |n.boards|);
    forall b | 0 <= b < |n.boards| ensures n.boards[b].inside <==> n.token == Held(b) { InsideHolds(n, b); }
    InsideCount(n.boards, n.token, |n.boards|);
  }

  /** With copies that travel hop by hop, in every reachable state: grants yet to be acted on plus boards inside is 1
      while the leader has the token out and 0 otherwise. */
  lemma OneTokenHopByHop(size: nat, steps: seq<HopStep>)
    requires 2 <= size <= 7 && IsHopRun(StartHops(size), steps)
    ensures var n := AfterHops(StartHops(size), steps);
            && |n.boards| == size
            && GrantsUpTo(n.boards, size) + InsideUpTo(n.boards, size) == if n.slot.tokenOut then 1 else 0
  {
    StartHopsIsOk(size);
    HopRunKeeps(StartHops(size), steps);
    TokenCounts(AfterHops(StartHops(size), steps));
  }

  /** No copy of a table is under way, or in the board's inbox. */
  predicate NoCopyFor(n: Hops, b: nat) {
    && b < |n.boards|
    && (forall i :: 0 <= i < |n.boards[b].inbox| ==> !n.boards[b].inbox[i].Copy?)
    && (forall s :: 0 <= s < |n.boards| ==> (n.boards[s].out.Sending? ==> !n.boards[s].out.msg.Copy?))
  }

  lemma HopperOnLog(n: Hops, b: nat)
    requires HopOk(n) && b < |n.boards|
    ensures FoldsAPrefix(n.boards[b].table, n.log, |n.boards|)
    ensures n.boards[b].inside || NoCopyFor(n, b) ==> n.boards[b].table == Fold(Init(|n.boards|), n.log)
  {
    assert HopperOk(n.boards[b], b, |n.boards|, n.token, n.log, AwaitsHolder(n.boards, n.token, b));
    assert IsPrefix(n.boards[b].table, n.boards[b].version, n.log, |n.boards|);
    assert n.log[..|n.log|] == n.log;
    if n.boards[b].inside { InsideIsCurrent(n, b); }
    if NoCopyFor(n, b) { DrainedWithoutCopies(n.boards[b].inbox, n.boards[b].version); }
  }

  /** And one log still explains all tables: each is the fold of a prefix, that of the board inside the fold of the
      whole log, and so is that of a board for which no copy is left. */
  lemma OneLogHopByHop(size: nat, steps: seq<HopStep>, b: nat)
    requires 2 <= size <= 7 && IsHopRun(StartHops(size), steps) && b < size
    ensures var n := AfterHops(StartHops(size), steps);
            && |n.boards| == size && FoldsAPrefix(n.boards[b].table, n.log, size)
            && (n.boards[b].inside || NoCopyFor(n, b) ==> n.boards[b].table == Fold(Init(size), n.log))
  {
    StartHopsIsOk(size);
    HopRunKeeps(StartHops(size), steps);
    HopperOnLog(AfterHops(StartHops(size), steps), b);
  }

  lemma TakeAdvances(n: Hops, a: nat)
    requires HopOk(n) && HopEnabled(n, TakeStep(a))
    ensures n.boards[a].version <= TakeMessage(n, a).boards[a].version
  {
    assert HopperOk(n.boards[a], a, |n.boards|, n.token, n.log, AwaitsHolder(n.boards, n.token, a));
  }

  lemma OthersLeaveLog(n: Hops, step: HopStep, b: nat)
    requires HopEnabled(n, step) && !step.TakeStep? && !step.EditStep? && b < |n.boards|
    ensures NextHop(n, step).log == n.log && NextHop(n, step).boards[b].version == n.boards[b].version
  {}

  lemma HopAdvances(n: Hops, step: HopStep, b: nat)
    requires HopOk(n) && HopEnabled(n, step) && b < |n.boards|
    ensures n.log <= NextHop(n, step).log && n.boards[b].version <= NextHop(n, step).boards[b].version
  {
    match step {
      case TakeStep(a) => TakeAdvances(n, a);
      case EditStep(a, _) => InsideIsCurrent(n, a);
      case _ => OthersLeaveLog(n, step, b);
    }
  }

  /** No update is lost: the log is only extended, and no board goes back to an older version of it. */
  lemma {:induction false} HopTablesOnlyAdvance(n: Hops, steps: seq<HopStep>, b: nat)
    requires HopOk(n) && IsHopRun(n, steps) && b < |n.boards|
    ensures n.log <= AfterHops(n, steps).log && n.boards[b].version <= AfterHops(n, steps).boards[b].version
    decreases |steps|
  {
    if steps != [] {
      HopKeeps(n, steps[0]);
      HopAdvances(n, steps[0], b);
      HopTablesOnlyAdvance(NextHop(n, steps[0]), steps[1..], b);
    }
  }
}
