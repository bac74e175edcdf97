/** No lost wake-up: an event whose request has been made is never left behind, even when the leader's counter of
    pending requests saturates and drops requests. */
module WakeUp {
  import opened Bits
  import opened Fifo
  import opened NodeSystem
  import opened Roles
  import opened Sync
  import opened TokenRing

  const REQUEST := Token(Request(ROUTING))

  /** The request of every queued event is still to be made. */
  predicate AllOwed(board: Board) {
    && (forall i :: 0 <= i < |board.internal| ==> board.internal[i].id in board.owed)
    && (forall i :: 0 <= i < |board.external| ==> board.external[i].id in board.owed)
  }

  /** The current token has not reached board `b` yet. */
  predicate TokenComing(token: Place, b: nat) {
    match token
    case Nowhere => false
    case Flying(to) => to <= b
    case Held(holder) => holder < b
  }

  /** Another token will be issued: a request is on its way to the leader, or pending there. */
  predicate RoundComing(n: Node)
    requires Shape(n)
  {
    Count(n.inbox[Center(n)], REQUEST) > 0 || n.components[ROUTING].slot.pending > 0
  }

  predicate Awaited(n: Node, b: nat)
    requires Shape(n)
  {
    RoundComing(n) || TokenComing(n.components[ROUTING].token, b)
  }

  predicate NoneForgotten(n: Node) {
    Shape(n) && forall b :: 0 <= b < |n.boards| ==> n.boards[b].inside || AllOwed(n.boards[b]) || Awaited(n, b)
  }

  // ---------- making a request ----------

  lemma LeaderRequestAwaitsAll(n: Node)
    requires TokenOk(n)
    ensures var r := LeaderRequest(n, ROUTING);
            forall a :: 0 <= a < |n.boards| ==> Awaited(r, a)
  {}

  lemma FollowerRequestAwaitsAll(n: Node, b: nat)
    requires Shape(n) && b < Center(n)
    ensures RoundComing(Send(n, b, REQUEST))
  {
    CountAppend(n.inbox[Center(n)], REQUEST, REQUEST);
  }

  /** After a request, by whatever path, every board that is not being served is awaited. */
  lemma RequestAwaitsAll(n: Node, b: nat)
    requires TokenOk(n) && b < |n.boards|
    ensures var r := RequestBy(n, b, ROUTING);
            r.boards == n.boards && forall a :: 0 <= a < |n.boards| ==> Awaited(r, a)
  {
    if b == Center(n) { LeaderRequestAwaitsAll(n); } else { FollowerRequestAwaitsAll(n, b); }
  }

  lemma BroadcastKeepsRequests(n: Node, src: nat, m: Msg)
    requires Shape(n)
    ensures Count(Send(n, src, m).inbox[Center(n)], REQUEST) >= Count(n.inbox[Center(n)], REQUEST)
  {
    CountAppend(n.inbox[Center(n)], REQUEST, m);
  }

  /** A request for another component takes nothing away. */
  lemma OtherRequestKeepsAwaited(n: Node, b: nat, cs: ComponentId)
    requires TokenOk(n) && b < |n.boards| && cs != ROUTING
    ensures var r := RequestBy(n, b, cs);
            r.boards == n.boards && forall a :: 0 <= a < |n.boards| && Awaited(n, a) ==> Awaited(r, a)
  {
    CountAppend(n.inbox[Center(n)], REQUEST, Token(Request(cs)));
    CountAppend(n.inbox[Center(n)], REQUEST, Token(Grant(cs, FIRST)));
  }

  /** The boards are as little owed and as much awaited as before. */
  lemma NothingLost(n: Node, r: Node)
    requires NoneForgotten(n) && SameShape(n, r)
    requires forall b :: 0 <= b < |n.boards| ==>
               || r.boards[b].inside
               || (AllOwed(n.boards[b]) && !n.boards[b].inside ==> AllOwed(r.boards[b]))
    requires forall b :: 0 <= b < |n.boards| ==> (n.boards[b].inside ==> r.boards[b].inside || AllOwed(r.boards[b]))
    requires forall b :: 0 <= b < |n.boards| ==> (Awaited(n, b) ==> Awaited(r, b) || r.boards[b].inside)
    ensures NoneForgotten(r)
  {}

  // ---------- passing the token ----------

  lemma PopKeepsRequests(n: Node, b: nat)
    requires Shape(n) && b < |n.boards| && n.inbox[b] != [] && n.inbox[b][0] != REQUEST
    ensures Count(Pop(n.inbox, b)[Center(n)], REQUEST) == Count(n.inbox[Center(n)], REQUEST)
  {}

  lemma RoundEndAwaits(n: Node, a: nat)
    requires TokenOk(n) && a < |n.boards| && n.components[ROUTING].token == Held(Center(n)) && Awaited(n, a)
    ensures Awaited(EndRound(n, ROUTING), a)
  {
    CountAppend(n.inbox[Center(n)], REQUEST, Token(Grant(ROUTING, FIRST)));
  }

  lemma FollowerPassesOn(n: Node, b: nat, a: nat)
    requires TokenOk(n) && b < Center(n) && a < |n.boards|
    requires n.components[ROUTING].token == Held(b) && (Awaited(n, a) || a > b)
    ensures Awaited(PassOn(n, b, ROUTING), a)
  {
    BroadcastKeepsRequests(n, b, Token(Grant(ROUTING, NextDevice(Orientation(b), |n.boards|))));
  }

  /** When a held routing token moves on, exactly the holder stops being awaited. */
  lemma PassOnAwaits(n: Node, b: nat, a: nat)
    requires TokenOk(n) && b < |n.boards| && a < |n.boards|
    requires n.components[ROUTING].token == Held(b) && (Awaited(n, a) || a > b)
    ensures Awaited(PassOn(n, b, ROUTING), a)
  {
    if b == Center(n) { RoundEndAwaits(n, a); } else { FollowerPassesOn(n, b, a); }
  }

  lemma OtherRoundEndAwaits(n: Node, cs: ComponentId, a: nat)
    requires TokenOk(n) && a < |n.boards| && cs != ROUTING && Awaited(n, a)
    ensures Awaited(EndRound(n, cs), a)
  {
    CountAppend(n.inbox[Center(n)], REQUEST, Token(Grant(cs, FIRST)));
  }

  lemma OtherPassOnAwaits(n: Node, b: nat, cs: ComponentId, a: nat)
    requires TokenOk(n) && b < |n.boards| && a < |n.boards| && cs != ROUTING && Awaited(n, a)
    ensures Awaited(PassOn(n, b, cs), a)
  {
    if b == Center(n) { OtherRoundEndAwaits(n, cs, a); }
    else { BroadcastKeepsRequests(n, b, Token(Grant(cs, NextDevice(Orientation(b), |n.boards|)))); }
  }

  lemma TakeAwaits(n: Node, b: nat, cs: ComponentId, a: nat)
    requires TokenOk(n) && b < |n.boards| && n.inbox[b] != [] && n.inbox[b][0] == Mine(cs, b)
    requires a < |n.boards| && Awaited(n, a)
    ensures Awaited(Take(n, b, cs), a) || (cs == ROUTING && a == b)
  {
    TakeIsOk(n, b, cs);
    PopKeepsRequests(n, b);
  }

  // ---------- steps ----------

  lemma GrantAwaits(n: Node, b: nat, cs: ComponentId, a: nat)
    requires TokenOk(n) && InsideOk(n) && Enabled(n, ReceiveStep(b)) && n.inbox[b][0] == Mine(cs, b)
    requires a < |n.boards| && Awaited(n, a)
    ensures Awaited(Receive(n, b), a) || Receive(n, b).boards[a].inside
  {
    TakeIsOk(n, b, cs);
    TakeAwaits(n, b, cs, a);
    if cs != ROUTING { OtherPassOnAwaits(Take(n, b, cs), b, cs, a); }
  }

  lemma GrantForgetsNone(n: Node, b: nat, cs: ComponentId)
    requires TokenOk(n) && InsideOk(n) && NoneForgotten(n) && Enabled(n, ReceiveStep(b)) && n.inbox[b][0] == Mine(cs, b)
    ensures NoneForgotten(Receive(n, b))
  {
    var r := Receive(n, b);
    forall a | 0 <= a < |n.boards| && Awaited(n, a) ensures Awaited(r, a) || r.boards[a].inside {
      GrantAwaits(n, b, cs, a);
    }
    NothingLost(n, r);
  }

  lemma AllAwaitedForgetsNone(r: Node)
    requires Shape(r) && forall a :: 0 <= a < |r.boards| ==> Awaited(r, a)
    ensures NoneForgotten(r)
  {}

  lemma EventForgetsNone(n: Node, b: nat)
    requires TokenOk(n) && NoneForgotten(n) && Enabled(n, ReceiveStep(b)) && n.inbox[b][0].Event?
    ensures NoneForgotten(Receive(n, b))
  {
    var popped, ev := n.(inbox := Pop(n.inbox, b)), n.inbox[b][0].event;
    PopIsOk(n, b);
    if |n.boards[b].internal| < QUEUE_CAPACITY {
      BoardsDoNotMatter(popped, QueueEvent(popped, b, ev));
      RequestAwaitsAll(QueueEvent(popped, b, ev), b);
      AllAwaitedForgetsNone(Receive(n, b));
    } else {
      PopKeepsRequests(n, b);
      NothingLost(n, Receive(n, b));
    }
  }

  lemma RequestForgetsNone(n: Node, b: nat, cs: ComponentId)
    requires TokenOk(n) && NoneForgotten(n) && b < |n.boards|
    ensures NoneForgotten(RequestBy(n, b, cs))
  {
    if cs == ROUTING {
      RequestAwaitsAll(n, b);
      AllAwaitedForgetsNone(RequestBy(n, b, cs));
    } else {
      OtherRequestKeepsAwaited(n, b, cs);
      NothingLost(n, RequestBy(n, b, cs));
    }
  }

  /** The leader turns a request it receives into a token or a pending request, or it has 255 pending already. */
  lemma RequestMessageForgetsNone(n: Node, b: nat, cs: ComponentId)
    requires TokenOk(n) && NoneForgotten(n) && Enabled(n, ReceiveStep(b)) && n.inbox[b][0] == Token(Request(cs))
    ensures NoneForgotten(Receive(n, b))
  {
    var popped := n.(inbox := Pop(n.inbox, b));
    PopIsOk(n, b);
    if b == Center(n) {
      assert Receive(n, b) == RequestBy(popped, b, cs);
      if cs == ROUTING {
        RequestAwaitsAll(popped, b);
        AllAwaitedForgetsNone(Receive(n, b));
      } else {
        PopKeepsRequests(n, b);
        NothingLost(n, popped);
        RequestForgetsNone(popped, b, cs);
      }
    } else {
      NothingLost(n, popped);
    }
  }

  lemma IgnoredForgetsNone(n: Node, b: nat)
    requires NoneForgotten(n) && Enabled(n, ReceiveStep(b)) && n.inbox[b][0] != REQUEST
    ensures NoneForgotten(n.(inbox := Pop(n.inbox, b)))
  {
    PopKeepsRequests(n, b);
    NothingLost(n, n.(inbox := Pop(n.inbox, b)));
  }

  lemma CopyForgetsNone(n: Node, b: nat)
    requires NoneForgotten(n) && Enabled(n, ReceiveStep(b)) && n.inbox[b][0].Copy?
    ensures NoneForgotten(Receive(n, b))
  {
    PopKeepsRequests(n, b);
    NothingLost(n, Receive(n, b));
  }

  lemma ReceiveForgetsNone(n: Node, b: nat)
    requires TokenOk(n) && InsideOk(n) && NoneForgotten(n) && Enabled(n, ReceiveStep(b))
    ensures NoneForgotten(Receive(n, b))
  {
    match n.inbox[b][0] {
      case Token(Grant(cs, destination)) =>
        if destination == Orientation(b) { GrantForgetsNone(n, b, cs); } else { IgnoredForgetsNone(n, b); }
      case Token(Request(cs)) => RequestMessageForgetsNone(n, b, cs);
      case Event(_) => EventForgetsNone(n, b);
      case Copy(_, _) => CopyForgetsNone(n, b);
    }
  }

  lemma LeaveAwaits(n: Node, b: nat, a: nat)
    requires TokenOk(n) && InsideOk(n) && Enabled(n, ExitStep(b)) && a < |n.boards| && Awaited(n, a)
    ensures Awaited(Exit(n, b), a)
  {
    BoardsDoNotMatter(n, Leave(n, b));
    PassOnAwaits(Leave(n, b), b, a);
  }

  lemma ExitForgetsNone(n: Node, b: nat)
    requires TokenOk(n) && InsideOk(n) && NoneForgotten(n) && Enabled(n, ExitStep(b))
    ensures NoneForgotten(Exit(n, b))
  {
    forall a | 0 <= a < |n.boards| && Awaited(n, a) ensures Awaited(Exit(n, b), a) { LeaveAwaits(n, b, a); }
    NothingLost(n, Exit(n, b));
  }

  lemma ActKeepsRequests(n: Node, b: nat)
    requires Enabled(n, ActStep(b))
    ensures Count(Act(n, b).inbox[Center(n)], REQUEST) >= Count(n.inbox[Center(n)], REQUEST)
    ensures Act(n, b).components == n.components
  {
    match n.boards[b].script[0] {
      case Edit(op) => BroadcastKeepsRequests(n, b, Copy(RoutingTables.Apply(n.boards[b].table, op), |n.log| + 1));
      case Refresh => BroadcastKeepsRequests(n, b, Copy(n.boards[b].table, n.boards[b].version));
      case Tell(ev) => BroadcastKeepsRequests(n, b, Event(ev));
      case ToPeer(_) =>
    }
  }

  /** One board changes, but not in what it is owed, and no request goes missing. */
  lemma OneBoardForgetsNone(n: Node, r: Node, b: nat)
    requires NoneForgotten(n) && SameShape(n, r) && b < |n.boards| && r.components == n.components
    requires Count(r.inbox[Center(n)], REQUEST) >= Count(n.inbox[Center(n)], REQUEST)
    requires forall a :: 0 <= a < |n.boards| && a != b ==> r.boards[a] == n.boards[a]
    requires r.boards[b].inside == n.boards[b].inside && r.boards[b].owed == n.boards[b].owed
    requires r.boards[b].internal == n.boards[b].internal && r.boards[b].external == n.boards[b].external
    ensures NoneForgotten(r)
  {
    NothingLost(n, r);
  }

  lemma ActForgetsNone(n: Node, b: nat)
    requires NoneForgotten(n) && Enabled(n, ActStep(b))
    ensures NoneForgotten(Act(n, b))
  {
    ActKeepsRequests(n, b);
    OneBoardForgetsNone(n, Act(n, b), b);
  }

  lemma PeerForgetsNone(n: Node, b: nat, ev: PeerEvent)
    requires NoneForgotten(n) && Enabled(n, PeerStep(b, ev))
    ensures NoneForgotten(PeerArrives(n, b, ev))
  {
    NothingLost(n, PeerArrives(n, b, ev));
  }

  lemma TickForgetsNone(n: Node, dt: U32)
    requires NoneForgotten(n) && Enabled(n, TickStep(dt))
    ensures NoneForgotten(TickCenter(n, dt))
  {
    BroadcastKeepsRequests(n, Center(n), Event(GatewayWinner(n.boards[Center(n)].local.role.root.network, 1)));
    OneBoardForgetsNone(n, TickCenter(n, dt), Center(n));
  }

  lemma DispatchForgetsNone(n: Node, b: nat)
    requires NoneForgotten(n) && Enabled(n, DispatchStep(b))
    ensures NoneForgotten(Dispatch(n, b))
  {
    OneBoardForgetsNone(n, Dispatch(n, b), b);
  }

  lemma OwedForgetsNone(n: Node, b: nat, id: nat)
    requires TokenOk(n) && Enabled(n, OwedStep(b, id))
    ensures NoneForgotten(RequestOwed(n, b, id))
  {
    BoardsDoNotMatter(n, Pay(n, b, id));
    RequestAwaitsAll(Pay(n, b, id), b);
    AllAwaitedForgetsNone(RequestOwed(n, b, id));
  }

  lemma StepForgetsNone(n: Node, step: Step)
    requires TokenOk(n) && InsideOk(n) && NoneForgotten(n) && Enabled(n, step)
    ensures NoneForgotten(Next(n, step))
  {
    match step {
      case ReceiveStep(b) => ReceiveForgetsNone(n, b);
      case DispatchStep(b) => DispatchForgetsNone(n, b);
      case ActStep(b) => ActForgetsNone(n, b);
      case ExitStep(b) => ExitForgetsNone(n, b);
      case PeerStep(b, ev) => PeerForgetsNone(n, b, ev);
      case OwedStep(b, id) => OwedForgetsNone(n, b, id);
      case RequestStep(b, cs) => RequestForgetsNone(n, b, cs);
      case TickStep(dt) => TickForgetsNone(n, dt);
    }
  }

  lemma {:induction false} RunForgetsNone(n: Node, steps: seq<Step>)
    requires TokenOk(n) && InsideOk(n) && NoneForgotten(n) && IsRun(n, steps)
    ensures NoneForgotten(After(n, steps))
    decreases |steps|
  {
    if steps != [] {
      StepKeepsToken(n, steps[0]);
      StepKeepsInside(n, steps[0]);
      StepForgetsNone(n, steps[0]);
      RunForgetsNone(Next(n, steps[0]), steps[1..]);
    }
  }

  /** In every reachable state, a board that holds an event whose request has been made is being served, or the current
      token has not reached it yet, or another token will be issued. */
  lemma NoWakeUpIsLost(size: nat, center: Role, steps: seq<Step>, b: nat)
    requires 2 <= size <= 7 && b < size && IsRun(Start(size, center), steps)
    ensures var n := After(Start(size, center), steps);
            n.boards[b].inside || AllOwed(n.boards[b]) || Awaited(n, b)
  {
    StartIsOk(size, center);
    RunForgetsNone(Start(size, center), steps);
  }
}
