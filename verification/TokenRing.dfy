/** The token of every component over every run: there is at most one, at most one board is in its critical section, and
    the rounds go round the ring and account for the requests. */
module TokenRing {
  import opened Bits
  import opened Fifo
  import opened NodeSystem
  import opened Roles
  import opened RoutingTables
  import opened Sync

  // ---------- what every step keeps ----------

  /** A grant that board `b` acts on; grants for other boards are ignored by it. */
  function Mine(cs: ComponentId, b: nat): Msg
    requires b < 7
  {
    Token(Grant(cs, b + 1))
  }

  /** The grants that will be acted on are exactly the one the token's place says. */
  predicate GrantsAt(inbox: seq<seq<Msg>>, cs: ComponentId, place: Place) {
    && |inbox| <= 7
    && forall b :: 0 <= b < |inbox| ==> Count(inbox[b], Mine(cs, b)) == if place == Flying(b) then 1 else 0
  }

  /** The boards 0 .. k-1, in ring order. */
  function Ring(k: nat): seq<nat> {
    if k == 0 then [] else Ring(k - 1) + [k - 1]
  }

  predicate VisitsMatch(current: seq<nat>, token: Place, size: nat) {
    match token
    case Nowhere => current == []
    case Flying(b) => b < size && current == Ring(b)
    case Held(b) => b < size && current == Ring(b + 1)
  }

  predicate FullRounds(finished: seq<seq<nat>>, size: nat) {
    forall i :: 0 <= i < |finished| ==> finished[i] == Ring(size)
  }

  predicate ComponentOk(c: Component, size: nat) {
    && (c.slot.tokenOut <==> c.token != Nowhere)
    && (c.slot.pending > 0 ==> c.slot.tokenOut) && c.slot.pending <= MAX_PENDING
    && VisitsMatch(c.current, c.token, size) && FullRounds(c.finished, size)
    && |c.finished| + (if c.token == Nowhere then 0 else 1) == c.issued
    && c.issued + c.slot.pending + c.dropped == c.handled
  }

  predicate TokenOk(n: Node) {
    && Shape(n)
    && (forall cs: ComponentId :: GrantsAt(n.inbox, cs, n.components[cs].token))
    && (forall cs: ComponentId :: ComponentOk(n.components[cs], |n.boards|))
  }

  /** A board is inside exactly while it holds the routing token; no other component's token is held between steps. */
  predicate InsideOk(n: Node) {
    && Shape(n)
    && (forall b :: 0 <= b < |n.boards| ==> (n.boards[b].inside <==> n.components[ROUTING].token == Held(b)))
    && (forall b :: 0 <= b < |n.boards| ==> (n.boards[b].script != [] ==> n.boards[b].inside))
    && (forall cs: ComponentId :: cs != ROUTING ==> !n.components[cs].token.Held?)
  }

  // ---------- inbox changes ----------

  lemma PopKeepsGrants(inbox: seq<seq<Msg>>, b: nat, cs: ComponentId, place: Place)
    requires GrantsAt(inbox, cs, place) && b < |inbox| && inbox[b] != [] && inbox[b][0] != Mine(cs, b)
    ensures GrantsAt(Pop(inbox, b), cs, place)
  {}

  lemma PopTakesGrant(inbox: seq<seq<Msg>>, b: nat, cs: ComponentId, place: Place)
    requires GrantsAt(inbox, cs, place) && b < |inbox| && inbox[b] != [] && inbox[b][0] == Mine(cs, b)
    ensures place == Flying(b) && GrantsAt(Pop(inbox, b), cs, Held(b))
  {}

  lemma BroadcastKeepsGrants(inbox: seq<seq<Msg>>, src: nat, m: Msg, cs: ComponentId, place: Place)
    requires GrantsAt(inbox, cs, place) && !(m.Token? && m.sync.Grant? && m.sync.cs == cs)
    ensures GrantsAt(Broadcast(inbox, src, m), cs, place)
  {
    forall b | 0 <= b < |inbox|
      ensures Count(Broadcast(inbox, src, m)[b], Mine(cs, b)) == if place == Flying(b) then 1 else 0
    {
      CountAppend(inbox[b], Mine(cs, b), m);
    }
  }

  lemma BroadcastPlacesGrant(inbox: seq<seq<Msg>>, src: nat, cs: ComponentId, place: Place, to: nat)
    requires GrantsAt(inbox, cs, place) && !place.Flying? && to < |inbox| && to != src
    ensures GrantsAt(Broadcast(inbox, src, Mine(cs, to)), cs, Flying(to))
  {
    var m := Mine(cs, to);
    forall b | 0 <= b < |inbox|
      ensures Count(Broadcast(inbox, src, m)[b], Mine(cs, b)) == if b == to then 1 else 0
    {
      CountAppend(inbox[b], Mine(cs, b), m);
    }
  }

  lemma SameGrants(inbox: seq<seq<Msg>>, cs: ComponentId, place: Place, other: Place)
    requires GrantsAt(inbox, cs, place) && !place.Flying? && !other.Flying?
    ensures GrantsAt(inbox, cs, other)
  {}

  // ---------- the token operations ----------

  /** Everything but component `cs` is in order, and no grant of `cs` is on its way. */
  predicate OthersOk(n: Node, cs: ComponentId) {
    && Shape(n)
    && (forall c: ComponentId :: c != cs ==> GrantsAt(n.inbox, c, n.components[c].token))
    && (forall c: ComponentId :: c != cs ==> ComponentOk(n.components[c], |n.boards|))
    && GrantsAt(n.inbox, cs, Nowhere)
  }

  /** The leader has decided to issue a token and is about to. */
  predicate AboutToIssue(c: Component, size: nat) {
    && c.token == Nowhere && c.slot.tokenOut && c.slot.pending <= MAX_PENDING
    && c.current == [] && FullRounds(c.finished, size)
    && |c.finished| == c.issued && c.issued + 1 + c.slot.pending + c.dropped == c.handled
  }

  lemma IssueIsOk(n: Node, cs: ComponentId)
    requires OthersOk(n, cs) && AboutToIssue(n.components[cs], |n.boards|)
    ensures TokenOk(Issue(n, cs))
  {
    var r := Issue(n, cs);
    forall c: ComponentId ensures GrantsAt(r.inbox, c, r.components[c].token) {
      if c == cs { BroadcastPlacesGrant(n.inbox, Center(n), cs, Nowhere, 0); }
      else { BroadcastKeepsGrants(n.inbox, Center(n), Token(Grant(cs, FIRST)), c, n.components[c].token); }
    }
  }

  lemma SendIsOk(n: Node, src: nat, m: Msg)
    requires TokenOk(n) && !(m.Token? && m.sync.Grant?)
    ensures TokenOk(Send(n, src, m))
  {
    forall c: ComponentId ensures GrantsAt(Send(n, src, m).inbox, c, n.components[c].token) {
      BroadcastKeepsGrants(n.inbox, src, m, c, n.components[c].token);
    }
  }

  lemma LeaderRequestIsOk(n: Node, cs: ComponentId)
    requires TokenOk(n)
    ensures TokenOk(LeaderRequest(n, cs))
  {
    var c := n.components[cs];
    if !c.slot.tokenOut {
      var n1 := PutComponent(n, cs, c.(slot := OnRequest(c.slot).0, handled := c.handled + 1));
      assert LeaderRequest(n, cs) == Issue(n1, cs);
      IssueIsOk(n1, cs);
    }
  }

  lemma RequestIsOk(n: Node, b: nat, cs: ComponentId)
    requires TokenOk(n) && b < |n.boards|
    ensures TokenOk(RequestBy(n, b, cs))
  {
    if b == Center(n) { LeaderRequestIsOk(n, cs); } else { SendIsOk(n, b, Token(Request(cs))); }
  }

  /** Popping a message that is not the board's own grant. */
  lemma PopIsOk(n: Node, b: nat)
    requires TokenOk(n) && b < |n.boards| && n.inbox[b] != []
    requires forall cs: ComponentId :: n.inbox[b][0] != Mine(cs, b)
    ensures TokenOk(n.(inbox := Pop(n.inbox, b)))
  {
    forall c: ComponentId ensures GrantsAt(Pop(n.inbox, b), c, n.components[c].token) {
      PopKeepsGrants(n.inbox, b, c, n.components[c].token);
    }
  }

  lemma TakeIsOk(n: Node, b: nat, cs: ComponentId)
    requires TokenOk(n) && b < |n.boards| && n.inbox[b] != [] && n.inbox[b][0] == Mine(cs, b)
    ensures TokenOk(Take(n, b, cs)) && n.components[cs].token == Flying(b)
  {
    var r := Take(n, b, cs);
    PopTakesGrant(n.inbox, b, cs, n.components[cs].token);
    forall c: ComponentId ensures GrantsAt(r.inbox, c, r.components[c].token) {
      if c != cs { PopKeepsGrants(n.inbox, b, c, n.components[c].token); }
    }
  }

  lemma EndRoundIsOk(n: Node, cs: ComponentId)
    requires TokenOk(n) && n.components[cs].token == Held(Center(n))
    ensures TokenOk(EndRound(n, cs))
  {
    var c := n.components[cs];
    var (slot, issue) := OnRoundEnd(c.slot);
    var c1 := c.(slot := slot, token := Nowhere, finished := c.finished + [c.current], current := []);
    var n1 := PutComponent(n, cs, c1);
    assert FullRounds(c1.finished, |n.boards|);
    SameGrants(n.inbox, cs, c.token, Nowhere);
    if issue { IssueIsOk(n1, cs); }
  }

  /** A follower's successor in the ring is the next board. */
  lemma NextBoard(b: nat, size: nat)
    requires b + 1 < size <= 7
    ensures NextDevice(Orientation(b), size) == Orientation(b + 1)
  {}

  lemma PassOnIsOk(n: Node, b: nat, cs: ComponentId)
    requires TokenOk(n) && b < |n.boards| && n.components[cs].token == Held(b)
    ensures TokenOk(PassOn(n, b, cs))
  {
    if b == Center(n) {
      EndRoundIsOk(n, cs);
    } else {
      NextBoard(b, |n.boards|);
      var r := PassOn(n, b, cs);
      forall c: ComponentId ensures GrantsAt(r.inbox, c, r.components[c].token) {
        if c == cs { BroadcastPlacesGrant(n.inbox, b, cs, Held(b), b + 1); }
        else { BroadcastKeepsGrants(n.inbox, b, Mine(cs, b + 1), c, n.components[c].token); }
      }
    }
  }

  // ---------- steps ----------

  lemma ReceiveIsOk(n: Node, b: nat)
    requires TokenOk(n) && Enabled(n, ReceiveStep(b))
    ensures TokenOk(Receive(n, b))
  {
    var m, popped := n.inbox[b][0], n.(inbox := Pop(n.inbox, b));
    match m {
      case Token(Grant(cs, destination)) =>
        if destination != Orientation(b) {
          PopIsOk(n, b);
        } else {
          TakeIsOk(n, b, cs);
          if cs != ROUTING { PassOnIsOk(Take(n, b, cs), b, cs); }
        }
      case Token(Request(cs)) =>
        PopIsOk(n, b);
        if b == Center(n) { LeaderRequestIsOk(popped, cs); }
      case Event(ev) =>
        PopIsOk(n, b);
        EnqueueIsOk(popped, b, ev);
      case Copy(_, _) =>
        PopIsOk(n, b);
    }
  }

  /** The token accounts do not depend on what the boards hold. */
  lemma BoardsDoNotMatter(n: Node, r: Node)
    requires TokenOk(n) && SameShape(n, r) && r.inbox == n.inbox && r.components == n.components
    ensures TokenOk(r)
  {}

  lemma EnqueueIsOk(n: Node, b: nat, ev: SiblEvent)
    requires TokenOk(n) && b < |n.boards|
    ensures TokenOk(Enqueue(n, b, ev))
  {
    BoardsDoNotMatter(n, QueueEvent(n, b, ev));
    RequestIsOk(QueueEvent(n, b, ev), b, ROUTING);
  }

  lemma ActIsOk(n: Node, b: nat)
    requires TokenOk(n) && Enabled(n, ActStep(b))
    ensures TokenOk(Act(n, b))
  {
    var r := Act(n, b);
    match n.boards[b].script[0] {
      case Edit(op) => SendIsOk(n, b, Copy(Apply(n.boards[b].table, op), |n.log| + 1));
      case Refresh => SendIsOk(n, b, Copy(n.boards[b].table, n.boards[b].version));
      case Tell(ev) => SendIsOk(n, b, Event(ev));
      case ToPeer(_) =>
    }
  }

  lemma ExitIsOk(n: Node, b: nat)
    requires TokenOk(n) && InsideOk(n) && Enabled(n, ExitStep(b))
    ensures TokenOk(Exit(n, b))
  {
    BoardsDoNotMatter(n, Leave(n, b));
    PassOnIsOk(Leave(n, b), b, ROUTING);
  }

  lemma TickIsOk(n: Node, dt: U32)
    requires TokenOk(n) && Enabled(n, TickStep(dt))
    ensures TokenOk(TickCenter(n, dt))
  {
    var b := Center(n);
    SendIsOk(n, b, Event(GatewayWinner(n.boards[b].local.role.root.network, 1)));
  }

  /** Every step keeps the token accounts of every component. */
  lemma StepKeepsToken(n: Node, step: Step)
    requires TokenOk(n) && InsideOk(n) && Enabled(n, step)
    ensures TokenOk(Next(n, step))
  {
    match step {
      case ReceiveStep(b) => ReceiveIsOk(n, b);
      case DispatchStep(b) =>
      case ActStep(b) => ActIsOk(n, b);
      case ExitStep(b) => ExitIsOk(n, b);
      case PeerStep(b, ev) =>
      case OwedStep(b, id) =>
        BoardsDoNotMatter(n, Pay(n, b, id));
        RequestIsOk(Pay(n, b, id), b, ROUTING);
      case RequestStep(b, cs) => RequestIsOk(n, b, cs);
      case TickStep(dt) => TickIsOk(n, dt);
    }
  }

  lemma RequestMovesNoHolder(n: Node, b: nat, cs: ComponentId)
    requires TokenOk(n) && b < |n.boards|
    ensures var r := RequestBy(n, b, cs);
            r.boards == n.boards && Shape(r)
            && forall c: ComponentId :: (r.components[c].token.Held? || n.components[c].token.Held?)
                                        ==> r.components[c].token == n.components[c].token
  {}

  lemma PassOnReleases(n: Node, b: nat, cs: ComponentId)
    requires TokenOk(n) && b < |n.boards|
    ensures var r := PassOn(n, b, cs);
            r.boards == n.boards && Shape(r) && !r.components[cs].token.Held?
            && forall c: ComponentId :: c != cs ==> r.components[c].token == n.components[c].token
  {}

  /** Nothing that InsideOk speaks of changes. */
  lemma InsideDependsOn(n: Node, r: Node)
    requires InsideOk(n) && SameShape(n, r)
    requires forall b :: 0 <= b < |n.boards| ==>
               r.boards[b].inside == n.boards[b].inside && (r.boards[b].script != [] ==> r.boards[b].inside)
    requires forall c: ComponentId :: (r.components[c].token.Held? || n.components[c].token.Held?)
                                      ==> r.components[c].token == n.components[c].token
    ensures InsideOk(r)
  {}

  lemma RequestKeepsInside(n: Node, b: nat, cs: ComponentId)
    requires TokenOk(n) && InsideOk(n) && b < |n.boards|
    ensures InsideOk(RequestBy(n, b, cs))
  {
    RequestMovesNoHolder(n, b, cs);
    InsideDependsOn(n, RequestBy(n, b, cs));
  }

  /** The board that takes the routing grant is inside with it. */
  lemma EnterKeepsInside(n: Node, b: nat)
    requires TokenOk(n) && InsideOk(n) && Enabled(n, ReceiveStep(b)) && n.inbox[b][0] == Mine(ROUTING, b)
    ensures InsideOk(Enter(Take(n, b, ROUTING), b))
  {
    TakeIsOk(n, b, ROUTING);
  }

  lemma OtherGrantKeepsInside(n: Node, b: nat, cs: ComponentId)
    requires TokenOk(n) && InsideOk(n) && Enabled(n, ReceiveStep(b)) && n.inbox[b][0] == Mine(cs, b) && cs != ROUTING
    ensures InsideOk(PassOn(Take(n, b, cs), b, cs))
  {
    TakeIsOk(n, b, cs);
    PassOnReleases(Take(n, b, cs), b, cs);
    InsideDependsOn(n, PassOn(Take(n, b, cs), b, cs));
  }

  lemma EnqueueKeepsInside(n: Node, b: nat, ev: SiblEvent)
    requires TokenOk(n) && InsideOk(n) && b < |n.boards|
    ensures InsideOk(Enqueue(n, b, ev))
  {
    BoardsDoNotMatter(n, QueueEvent(n, b, ev));
    InsideDependsOn(n, QueueEvent(n, b, ev));
    RequestKeepsInside(QueueEvent(n, b, ev), b, ROUTING);
  }

  lemma ReceiveKeepsInside(n: Node, b: nat)
    requires TokenOk(n) && InsideOk(n) && Enabled(n, ReceiveStep(b))
    ensures InsideOk(Receive(n, b))
  {
    var m, popped := n.inbox[b][0], n.(inbox := Pop(n.inbox, b));
    if m.Token? && m.sync.Grant? && m.sync.destination == Orientation(b) {
      if m.sync.cs == ROUTING { EnterKeepsInside(n, b); } else { OtherGrantKeepsInside(n, b, m.sync.cs); }
    } else {
      PopIsOk(n, b);
      InsideDependsOn(n, popped);
      match m {
        case Token(Grant(_, _)) =>
        case Token(Request(cs)) => if b == Center(n) { RequestKeepsInside(popped, b, cs); }
        case Event(ev) => EnqueueKeepsInside(popped, b, ev);
        case Copy(_, _) => InsideDependsOn(popped, Receive(n, b));
      }
    }
  }

  lemma ExitKeepsInside(n: Node, b: nat)
    requires TokenOk(n) && InsideOk(n) && Enabled(n, ExitStep(b))
    ensures InsideOk(Exit(n, b))
  {
    BoardsDoNotMatter(n, Leave(n, b));
    PassOnReleases(Leave(n, b), b, ROUTING);
  }

  lemma DispatchKeepsInside(n: Node, b: nat)
    requires InsideOk(n) && Enabled(n, DispatchStep(b))
    ensures InsideOk(Dispatch(n, b))
  {
    InsideDependsOn(n, Dispatch(n, b));
  }

  lemma ActKeepsInside(n: Node, b: nat)
    requires InsideOk(n) && Enabled(n, ActStep(b))
    ensures InsideOk(Act(n, b))
  {
    InsideDependsOn(n, Act(n, b));
  }

  lemma OwedKeepsInside(n: Node, b: nat, id: nat)
    requires TokenOk(n) && InsideOk(n) && Enabled(n, OwedStep(b, id))
    ensures InsideOk(RequestOwed(n, b, id))
  {
    BoardsDoNotMatter(n, Pay(n, b, id));
    InsideDependsOn(n, Pay(n, b, id));
    RequestKeepsInside(Pay(n, b, id), b, ROUTING);
  }

  lemma PeerKeepsInside(n: Node, b: nat, ev: PeerEvent)
    requires InsideOk(n) && Enabled(n, PeerStep(b, ev))
    ensures InsideOk(PeerArrives(n, b, ev))
  {
    InsideDependsOn(n, PeerArrives(n, b, ev));
  }

  lemma TickKeepsInside(n: Node, dt: U32)
    requires InsideOk(n) && Enabled(n, TickStep(dt))
    ensures InsideOk(TickCenter(n, dt))
  {
    InsideDependsOn(n, TickCenter(n, dt));
  }

  lemma StepKeepsInside(n: Node, step: Step)
    requires TokenOk(n) && InsideOk(n) && Enabled(n, step)
    ensures InsideOk(Next(n, step))
  {
    match step {
      case ReceiveStep(b) => ReceiveKeepsInside(n, b);
      case DispatchStep(b) => DispatchKeepsInside(n, b);
      case ActStep(b) => ActKeepsInside(n, b);
      case ExitStep(b) => ExitKeepsInside(n, b);
      case PeerStep(b, ev) => PeerKeepsInside(n, b, ev);
      case OwedStep(b, id) => OwedKeepsInside(n, b, id);
      case RequestStep(b, cs) => RequestKeepsInside(n, b, cs);
      case TickStep(dt) => TickKeepsInside(n, dt);
    }
  }

  lemma StartIsOk(size: nat, center: Role)
    requires 2 <= size <= 7
    ensures TokenOk(Start(size, center)) && InsideOk(Start(size, center))
  {
    var n := Start(size, center);
    forall b | 0 <= b < size ensures !n.boards[b].inside && n.boards[b].script == [] {}
    forall cs: ComponentId
      ensures ComponentOk(n.components[cs], size) && GrantsAt(n.inbox, cs, n.components[cs].token)
    {
      assert n.components[cs] == START_COMPONENT;
    }
  }

  // ---------- runs ----------

  lemma {:induction false} RunKeepsToken(n: Node, steps: seq<Step>)
    requires TokenOk(n) && InsideOk(n) && IsRun(n, steps)
    ensures TokenOk(After(n, steps)) && InsideOk(After(n, steps))
    decreases |steps|
  {
    if steps != [] {
      StepKeepsToken(n, steps[0]);
      StepKeepsInside(n, steps[0]);
      RunKeepsToken(Next(n, steps[0]), steps[1..]);
    }
  }

  /** The grants on their way to the board they name. */
  function LiveGrants(inbox: seq<seq<Msg>>, cs: ComponentId, k: nat): nat
    requires k <= |inbox| <= 7
  {
    if k == 0 then 0 else LiveGrants(inbox, cs, k - 1) + Count(inbox[k - 1], Mine(cs, k - 1))
  }

  /** The boards inside the routing critical section. */
  function Insiders(boards: seq<Board>, k: nat): nat
    requires k <= |boards|
  {
    if k == 0 then 0 else Insiders(boards, k - 1) + if boards[k - 1].inside then 1 else 0
  }

  lemma {:induction false} LiveGrantsIs(inbox: seq<seq<Msg>>, cs: ComponentId, place: Place, k: nat)
    requires GrantsAt(inbox, cs, place) && k <= |inbox|
    ensures LiveGrants(inbox, cs, k) == if place.Flying? && place.to < k then 1 else 0
  {
    if k > 0 { LiveGrantsIs(inbox, cs, place, k - 1); }
  }

  lemma {:induction false} InsidersIs(n: Node, k: nat)
    requires InsideOk(n) && k <= |n.boards|
    ensures var place := n.components[ROUTING].token;
            Insiders(n.boards, k) == if place.Held? && place.holder < k then 1 else 0
  {
    if k > 0 { InsidersIs(n, k - 1); }
  }

  /** In every reachable state, for every component: grants on their way plus boards inside is 1 while the leader has
      the token out and 0 otherwise; requests are pending only while it is out; and at most one board is inside. */
  lemma TokenIsUnique(size: nat, center: Role, steps: seq<Step>, cs: ComponentId)
    requires 2 <= size <= 7 && IsRun(Start(size, center), steps)
    ensures var n := After(Start(size, center), steps);
            && Shape(n) && |n.inbox| == |n.boards| == size
            && LiveGrants(n.inbox, cs, size) + (if cs == ROUTING then Insiders(n.boards, size) else 0)
               == (if n.components[cs].slot.tokenOut then 1 else 0)
            && (n.components[cs].slot.pending > 0 ==> n.components[cs].slot.tokenOut)
            && (forall a, b :: 0 <= a < b < size ==> !(n.boards[a].inside && n.boards[b].inside))
  {
    StartIsOk(size, center);
    RunKeepsToken(Start(size, center), steps);
    var n := After(Start(size, center), steps);
    LiveGrantsIs(n.inbox, cs, n.components[cs].token, size);
    InsidersIs(n, size);
  }

  /** In every reachable state, for every component: each finished round went round the whole ring in order, the current
      round is a prefix of that, and rounds issued plus requests pending is requests handled minus requests dropped. */
  lemma RoundsAccountForRequests(size: nat, center: Role, steps: seq<Step>, cs: ComponentId)
    requires 2 <= size <= 7 && IsRun(Start(size, center), steps)
    ensures var n := After(Start(size, center), steps);
            && Shape(n)
            && var c := n.components[cs];
            && (forall i :: 0 <= i < |c.finished| ==> c.finished[i] == Ring(size))
            && (exists k :: 0 <= k <= size && c.current == Ring(k))
            && |c.finished| == c.issued - (if c.slot.tokenOut then 1 else 0)
            && c.issued + c.slot.pending == c.handled - c.dropped
  {
    StartIsOk(size, center);
    RunKeepsToken(Start(size, center), steps);
    var c := After(Start(size, center), steps).components[cs];
    assert c.current == Ring(match c.token case Nowhere => 0 case Flying(b) => b case Held(b) => b + 1);
  }
}
