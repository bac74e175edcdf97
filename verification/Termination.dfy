/** Left to itself, the node comes to rest: runs of the boards' own steps, without new peer events, requests or ticks,
    are bounded, whatever the order of the steps. Every queued event is then dispatched. */
module Termination {
  import opened Bits
  import opened Fifo
  import opened Flooding
  import opened NodeSystem
  import opened Progress
  import opened Provisioning
  import opened Roles
  import opened RoutingTables
  import opened Sync
  import opened TokenRing
  import opened WakeUp

  // ---------- sums ----------

  function Sum(ws: seq<nat>): nat {
    if ws == [] then 0 else ws[0] + Sum(ws[1..])
  }

  lemma {:induction false} SumUpdate(ws: seq<nat>, i: nat, w: nat)
    requires i < |ws|
    ensures Sum(ws[i := w]) + ws[i] == Sum(ws) + w
  {
    if i == 0 {
      assert ws[0 := w][1..] == ws[1..];
    } else {
      assert ws[i := w][1..] == ws[1..][i - 1 := w];
      SumUpdate(ws[1..], i - 1, w);
    }
  }

  lemma {:induction false} SumAdd(ws: seq<nat>, add: seq<nat>, both: seq<nat>)
    requires |both| == |ws| == |add| && forall i :: 0 <= i < |ws| ==> both[i] == ws[i] + add[i]
    ensures Sum(both) == Sum(ws) + Sum(add)
  {
    if ws != [] { SumAdd(ws[1..], add[1..], both[1..]); }
  }

  lemma {:induction false} SumAtMost(ws: seq<nat>, each: nat, size: nat)
    requires |ws| <= size && forall i :: 0 <= i < |ws| ==> ws[i] <= each
    ensures Sum(ws) <= Times(size, each)
  {
    if ws != [] { SumAtMost(ws[1..], each, size - 1); }
  }

  lemma {:induction false} SumWithZero(ws: seq<nat>, each: nat, i: nat)
    requires i < |ws| <= 7 && ws[i] == 0 && forall j :: 0 <= j < |ws| ==> ws[j] <= each
    ensures Sum(ws) <= 6 * each
  {
    var others := ws[..i] + ws[i + 1..];
    SumWithout(ws, i);
    SumAtMost(others, each, 6);
    SixTimes(each);
  }

  lemma SixTimes(each: nat)
    ensures Times(6, each) == 6 * each
  {
    TimesStep(0, each);
    TimesStep(1, each);
    TimesStep(2, each);
    TimesStep(3, each);
    TimesStep(4, each);
    TimesStep(5, each);
  }

  lemma TimesStep(a: nat, each: nat)
    ensures Times(a + 1, each) == each + Times(a, each) && Times(0, each) == 0
  {}

  lemma {:induction false} SumWithout(ws: seq<nat>, i: nat)
    requires i < |ws|
    ensures Sum(ws[..i] + ws[i + 1..]) + ws[i] == Sum(ws)
  {
    if i == 0 {
      assert ws[..0] + ws[1..] == ws[1..];
    } else {
      assert (ws[..i] + ws[i + 1..])[1..] == ws[1..][..i - 1] + ws[1..][i..];
      SumWithout(ws[1..], i - 1);
    }
  }

  // ---------- what is still to come of each thing ----------

  /** A round of the token with all its grants, the most that a request can start. */
  const ROUND: nat := 62

  /** A request on its way to the leader, with its copies to the others. */
  const REQUESTED: nat := ROUND + 7

  /** A queued event: its dispatch and its actions. Only the start event of a root tells the siblings anything. */
  function QueuedWeight(ev: SiblEvent): nat {
    if ev.OnStart? then 8 + TellWeight(8) else 8
  }

  /** An event on its way: its request and its dispatch. */
  function EventWeight(queued: nat): nat {
    REQUESTED + 1 + queued
  }

  function TellWeight(queued: nat): nat {
    1 + 6 * EventWeight(queued)
  }

  function ActionWeight(action: Action): nat {
    match action
    case Edit(_) => 7
    case Refresh => 7
    case Tell(ev) => TellWeight(QueuedWeight(ev))
    case ToPeer(_) => 1
  }

  /** A peer event: its dispatch, up to sixteen edits, and an event for the siblings. */
  function PeerWeight(ev: PeerEvent): nat {
    1 + 16 * 7 + TellWeight(8)
  }

  function ScriptWeight(script: seq<Action>): nat {
    if script == [] then 0 else ActionWeight(script[0]) + ScriptWeight(script[1..])
  }

  function InternalWeight(q: seq<Queued<SiblEvent>>): nat {
    if q == [] then 0 else QueuedWeight(q[0].event) + InternalWeight(q[1..])
  }

  function ExternalWeight(q: seq<Queued<PeerEvent>>): nat {
    if q == [] then 0 else PeerWeight(q[0].event) + ExternalWeight(q[1..])
  }

  function UndonePeers(board: Board): seq<Queued<PeerEvent>> {
    if board.done <= |board.internal| then board.external
    else if board.done <= Total(board) then board.external[board.done - |board.internal|..]
    else []
  }

  function BoardWeight(board: Board): nat {
    InternalWeight(Undone(board)) + ExternalWeight(UndonePeers(board)) + ScriptWeight(board.script)
    + (REQUESTED + 1) * |board.owed|
  }

  function MsgWeight(m: Msg, atCenter: bool): nat {
    match m
    case Token(Grant(_, _)) => 1
    case Token(Request(_)) => if atCenter then ROUND + 1 else 1
    case Event(ev) => EventWeight(QueuedWeight(ev))
    case Copy(_, _) => 1
  }

  function InboxWeight(q: seq<Msg>, atCenter: bool): nat {
    if q == [] then 0 else MsgWeight(q[0], atCenter) + InboxWeight(q[1..], atCenter)
  }

  /** What is left of the current round. */
  function TokenWeight(place: Place, size: nat): nat {
    match place
    case Nowhere => 0
    case Flying(b) => if b < size then 8 * (size - b) else 0
    case Held(b) => if b < size then 8 * (size - b) - 1 else 0
  }

  function ComponentWeight(c: Component, size: nat): nat {
    ROUND * c.slot.pending + TokenWeight(c.token, size)
  }

  function Boards(n: Node): (ws: seq<nat>)
    ensures |ws| == |n.boards| && forall b :: 0 <= b < |ws| ==> ws[b] == BoardWeight(n.boards[b])
  {
    seq(|n.boards|, b requires 0 <= b < |n.boards| => BoardWeight(n.boards[b]))
  }

  function Inboxes(n: Node): (ws: seq<nat>)
    ensures |ws| == |n.inbox|
    ensures forall b :: 0 <= b < |ws| ==> ws[b] == InboxWeight(n.inbox[b], b + 1 == |n.inbox|)
  {
    seq(|n.inbox|, b requires 0 <= b < |n.inbox| => InboxWeight(n.inbox[b], b + 1 == |n.inbox|))
  }

  function Components(n: Node): (ws: seq<nat>)
    ensures |ws| == |n.components|
    ensures forall c :: 0 <= c < |ws| ==> ws[c] == ComponentWeight(n.components[c], |n.boards|)
  {
    seq(|n.components|, c requires 0 <= c < |n.components| => ComponentWeight(n.components[c], |n.boards|))
  }

  function Traffic(n: Node): nat {
    Sum(Inboxes(n)) + Sum(Components(n))
  }

  function Measure(n: Node): nat {
    Traffic(n) + Sum(Boards(n))
  }

  // ---------- messages ----------

  lemma {:induction false} InboxWeightAppend(q: seq<Msg>, m: Msg, atCenter: bool)
    ensures InboxWeight(q + [m], atCenter) == InboxWeight(q, atCenter) + MsgWeight(m, atCenter)
  {
    if q == [] {
      assert (q + [m])[1..] == [];
    } else {
      assert (q + [m])[1..] == q[1..] + [m];
      InboxWeightAppend(q[1..], m, atCenter);
    }
  }

  function AddedTo(b: nat, size: nat, src: nat, m: Msg): nat {
    if b == src then 0 else MsgWeight(m, b + 1 == size)
  }

  /** What a broadcast adds to each inbox. */
  function Added(size: nat, src: nat, m: Msg): (ws: seq<nat>)
    ensures |ws| == size
    ensures forall b :: 0 <= b < size ==> ws[b] == if b == src then 0 else MsgWeight(m, b + 1 == size)
  {
    seq(size, b requires 0 <= b < size => AddedTo(b, size, src, m))
  }

  lemma SendAdds(n: Node, src: nat, m: Msg)
    requires Shape(n)
    ensures Traffic(Send(n, src, m)) == Traffic(n) + Sum(Added(|n.inbox|, src, m))
  {
    var r := Send(n, src, m);
    forall b | 0 <= b < |n.inbox| ensures Inboxes(r)[b] == Inboxes(n)[b] + Added(|n.inbox|, src, m)[b] {
      InboxWeightAppend(n.inbox[b], m, b + 1 == |n.inbox|);
    }
    SumAdd(Inboxes(n), Added(|n.inbox|, src, m), Inboxes(r));
    assert Components(r) == Components(n);
  }

  /** Six inboxes at most get the message. */
  lemma SendCosts(n: Node, src: nat, m: Msg)
    requires Shape(n) && src < |n.boards| && !(m.Token? && m.sync.Request?)
    ensures Traffic(Send(n, src, m)) <= Traffic(n) + 6 * MsgWeight(m, false)
  {
    SendAdds(n, src, m);
    SumWithZero(Added(|n.inbox|, src, m), MsgWeight(m, false), src);
  }

  lemma RequestSendCosts(n: Node, src: nat, cs: ComponentId)
    requires Shape(n) && src < Center(n)
    ensures Traffic(Send(n, src, Token(Request(cs)))) <= Traffic(n) + REQUESTED
  {
    var ws := Added(|n.inbox|, src, Token(Request(cs)));
    SendAdds(n, src, Token(Request(cs)));
    SumUpdate(ws, Center(n), 0);
    SumWithZero(ws[Center(n) := 0], 1, src);
  }

  lemma PopCosts(n: Node, b: nat)
    requires Shape(n) && b < |n.boards| && n.inbox[b] != []
    ensures Traffic(n.(inbox := Pop(n.inbox, b))) + MsgWeight(n.inbox[b][0], b == Center(n)) == Traffic(n)
  {
    var r := n.(inbox := Pop(n.inbox, b));
    assert Inboxes(r) == Inboxes(n)[b := InboxWeight(n.inbox[b][1..], b == Center(n))];
    SumUpdate(Inboxes(n), b, InboxWeight(n.inbox[b][1..], b == Center(n)));
    assert Components(r) == Components(n);
  }

  lemma PutCosts(n: Node, cs: ComponentId, c: Component)
    requires Shape(n)
    ensures Traffic(PutComponent(n, cs, c)) + ComponentWeight(n.components[cs], |n.boards|)
            == Traffic(n) + ComponentWeight(c, |n.boards|)
  {
    var r := PutComponent(n, cs, c);
    assert Components(r) == Components(n)[cs := ComponentWeight(c, |n.boards|)];
    SumUpdate(Components(n), cs, ComponentWeight(c, |n.boards|));
    assert Inboxes(r) == Inboxes(n);
  }

  // ---------- the token ----------

  lemma IssueCosts(n: Node, cs: ComponentId)
    requires Shape(n) && n.components[cs].token == Nowhere
    ensures Traffic(Issue(n, cs)) <= Traffic(n) + ROUND
  {
    var c := n.components[cs];
    var c1 := c.(token := Flying(0), issued := c.issued + 1);
    PutCosts(n, cs, c1);
    SendCosts(PutComponent(n, cs, c1), Center(n), Token(Grant(cs, FIRST)));
  }

  lemma LeaderRequestCosts(n: Node, cs: ComponentId)
    requires TokenOk(n)
    ensures Traffic(LeaderRequest(n, cs)) <= Traffic(n) + ROUND
  {
    var c := n.components[cs];
    var (slot, issue) := OnRequest(c.slot);
    var dropped := if !issue && slot == c.slot then c.dropped + 1 else c.dropped;
    var c1 := c.(slot := slot, handled := c.handled + 1, dropped := dropped);
    assert ComponentOk(c, |n.boards|);
    PutCosts(n, cs, c1);
    if issue { IssueCosts(PutComponent(n, cs, c1), cs); }
  }

  lemma RequestCosts(n: Node, b: nat, cs: ComponentId)
    requires TokenOk(n) && b < |n.boards|
    ensures Traffic(RequestBy(n, b, cs)) <= Traffic(n) + REQUESTED
  {
    if b == Center(n) { LeaderRequestCosts(n, cs); } else { RequestSendCosts(n, b, cs); }
  }

  lemma EndRoundCosts(n: Node, cs: ComponentId)
    requires TokenOk(n) && n.components[cs].token == Held(Center(n))
    ensures Traffic(EndRound(n, cs)) < Traffic(n)
  {
    var c := n.components[cs];
    var (slot, issue) := OnRoundEnd(c.slot);
    var c1 := c.(slot := slot, token := Nowhere, finished := c.finished + [c.current], current := []);
    PutCosts(n, cs, c1);
    if issue { IssueCosts(PutComponent(n, cs, c1), cs); }
  }

  lemma PassOnCosts(n: Node, b: nat, cs: ComponentId)
    requires TokenOk(n) && b < |n.boards| && n.components[cs].token == Held(b)
    ensures Traffic(PassOn(n, b, cs)) < Traffic(n)
  {
    if b == Center(n) {
      EndRoundCosts(n, cs);
    } else {
      var c1 := n.components[cs].(token := Flying(b + 1));
      PutCosts(n, cs, c1);
      SendCosts(PutComponent(n, cs, c1), b, Token(Grant(cs, NextDevice(Orientation(b), |n.boards|))));
    }
  }

  lemma TakeCosts(n: Node, b: nat, cs: ComponentId)
    requires TokenOk(n) && b < |n.boards| && n.inbox[b] != [] && n.inbox[b][0] == Mine(cs, b)
    ensures Traffic(Take(n, b, cs)) < Traffic(n)
  {
    var popped, c := n.(inbox := Pop(n.inbox, b)), n.components[cs];
    TakeIsOk(n, b, cs);
    PopCosts(n, b);
    PutCosts(popped, cs, c.(token := Held(b), current := c.current + [b]));
  }

  // ---------- boards ----------

  lemma PutBoardCosts(n: Node, b: nat, board: Board)
    requires Shape(n) && b < |n.boards|
    ensures var r := PutBoard(n, b, board);
            Traffic(r) == Traffic(n) && Sum(Boards(r)) + BoardWeight(n.boards[b]) == Sum(Boards(n)) + BoardWeight(board)
  {
    var r := PutBoard(n, b, board);
    assert Boards(r) == Boards(n)[b := BoardWeight(board)];
    SumUpdate(Boards(n), b, BoardWeight(board));
    assert Inboxes(r) == Inboxes(n) && Components(r) == Components(n);
  }

  lemma SameBoardsWeigh(n: Node, r: Node)
    requires n.boards == r.boards
    ensures Boards(n) == Boards(r)
  {}

  lemma {:induction false} InternalWeightAppend(q: seq<Queued<SiblEvent>>, e: Queued<SiblEvent>)
    ensures InternalWeight(q + [e]) == InternalWeight(q) + QueuedWeight(e.event)
  {
    if q == [] {
      assert (q + [e])[1..] == [];
    } else {
      assert (q + [e])[1..] == q[1..] + [e];
      InternalWeightAppend(q[1..], e);
    }
  }

  lemma EnqueueCosts(n: Node, b: nat, ev: SiblEvent)
    requires TokenOk(n) && b < |n.boards| && n.boards[b].done == 0
    ensures Measure(Enqueue(n, b, ev)) <= Measure(n) + QueuedWeight(ev) + REQUESTED
  {
    if |n.boards[b].internal| < QUEUE_CAPACITY {
      var queued := QueueEvent(n, b, ev);
      var board, next := n.boards[b], queued.boards[b];
      InternalWeightAppend(board.internal, Queued(board.nextId, ev));
      assert Undone(board) == board.internal && Undone(next) == next.internal;
      PutBoardCosts(n, b, next);
      BoardsDoNotMatter(n, queued);
      RequestCosts(queued, b, ROUTING);
      SameBoardsWeigh(queued, RequestBy(queued, b, ROUTING));
    } else {
      var dropped := n.(panicked := true);
      assert Inboxes(dropped) == Inboxes(n) && Components(dropped) == Components(n) && Boards(dropped) == Boards(n);
    }
  }

  lemma GrantCosts(n: Node, b: nat, cs: ComponentId)
    requires TokenOk(n) && CursorOk(n) && Enabled(n, ReceiveStep(b)) && n.inbox[b][0] == Mine(cs, b)
    ensures Measure(Receive(n, b)) < Measure(n)
  {
    var taken := Take(n, b, cs);
    TakeIsOk(n, b, cs);
    TakeCosts(n, b, cs);
    SameBoardsWeigh(n, taken);
    if cs == ROUTING {
      PutBoardCosts(taken, b, taken.boards[b].(inside := true, done := 0));
    } else {
      PassOnCosts(taken, b, cs);
      SameBoardsWeigh(taken, PassOn(taken, b, cs));
    }
  }

  lemma ReceiveCosts(n: Node, b: nat)
    requires TokenOk(n) && CursorOk(n) && Enabled(n, ReceiveStep(b))
    ensures Measure(Receive(n, b)) < Measure(n)
  {
    var popped := n.(inbox := Pop(n.inbox, b));
    PopCosts(n, b);
    SameBoardsWeigh(n, popped);
    match n.inbox[b][0] {
      case Token(Grant(cs, destination)) => if destination == Orientation(b) { GrantCosts(n, b, cs); }
      case Token(Request(cs)) =>
        PopIsOk(n, b);
        if b == Center(n) {
          LeaderRequestCosts(popped, cs);
          SameBoardsWeigh(popped, LeaderRequest(popped, cs));
        }
      case Event(ev) =>
        PopIsOk(n, b);
        EnqueueCosts(popped, b, ev);
      case Copy(table, version) =>
        PutBoardCosts(popped, b, n.boards[b].(table := table, version := version));
    }
  }

  // ---------- dispatching ----------

  lemma {:induction false} HagEditsWeigh(path: PathList, orientation: U8, k: nat, rest: seq<Action>)
    requires k <= PATH_CAPACITY
    ensures ScriptWeight(HagEdits(path, orientation, k) + rest) == 7 * k + ScriptWeight(rest)
  {
    if k == 0 {
      assert HagEdits(path, orientation, 0) + rest == rest;
    } else {
      var edit := Edit(AddRoute(path[k - 1], orientation));
      HagEditsWeigh(path, orientation, k - 1, [edit] + rest);
      assert ([edit] + rest)[1..] == rest;
      assert HagEdits(path, orientation, k) + rest == HagEdits(path, orientation, k - 1) + ([edit] + rest);
    }
  }

  lemma OneAction(action: Action)
    ensures ScriptWeight([action]) == ActionWeight(action)
  {
    assert [action][1..] == [];
  }

  lemma TwoActions(first: Action, second: Action)
    ensures ScriptWeight([first, second]) == ActionWeight(first) + ActionWeight(second)
  {
    assert [first, second][1..] == [second];
    OneAction(second);
  }

  /** Sibling handlers tell the siblings nothing, but for a root's at the start. */
  lemma SiblingScriptWeighs(l: Local, orientation: U8, ev: SiblEvent)
    ensures ScriptWeight(HandleSibling(l, orientation, ev).actions) < QueuedWeight(ev)
  {
    var actions := HandleSibling(l, orientation, ev).actions;
    if |actions| == 1 {
      assert actions == [actions[0]];
      OneAction(actions[0]);
    } else if |actions| == 2 {
      assert actions == [actions[0], actions[1]];
      TwoActions(actions[0], actions[1]);
    }
  }

  lemma RequestScriptWeighs(s: ForwarderState, orientation: U8, path: PathList)
    ensures ScriptWeight(OnGatewayRequestFromPeer(s, orientation, path).1) <= 16 * 7 + TellWeight(8)
  {
    var n := if path[0].addr == 0 then 0 else PATH_CAPACITY;
    var edits, tell := HagEdits(path, orientation, n), Tell(SendGatewayRequest(path));
    HagEditsWeigh(path, orientation, n, [tell]);
    HagEditsWeigh(path, orientation, n, []);
    OneAction(tell);
    assert edits + [] == edits;
  }

  lemma PeerScriptWeighs(l: Local, orientation: U8, ev: PeerEvent)
    ensures ScriptWeight(HandlePeer(l, orientation, ev).actions) < PeerWeight(ev)
  {
    var actions := HandlePeer(l, orientation, ev).actions;
    if ev.GatewayRequest? && l.role.Forwarder? {
      RequestScriptWeighs(l.role.fwd, orientation, ev.hags);
    } else if |actions| == 1 {
      assert actions == [actions[0]];
      OneAction(actions[0]);
    } else if |actions| == 2 {
      assert actions == [actions[0], actions[1]];
      TwoActions(actions[0], actions[1]);
    }
  }

  lemma DispatchCosts(n: Node, b: nat)
    requires Enabled(n, DispatchStep(b))
    ensures Measure(Dispatch(n, b)) < Measure(n)
  {
    var r, board, next := Dispatch(n, b), n.boards[b], Dispatch(n, b).boards[b];
    NextWeighsLess(board, next, b);
    PutBoardCosts(n, b, next);
    assert Inboxes(r) == Inboxes(PutBoard(n, b, next)) && Components(r) == Components(PutBoard(n, b, next));
    SameBoardsWeigh(r, PutBoard(n, b, next));
  }

  lemma NextWeighsLess(board: Board, next: Board, b: nat)
    requires b < 7 && board.done < Total(board) && board.script == []
    requires var o := NextOutcome(board, Orientation(b));
             next == board.(local := o.local, done := board.done + 1, script := o.actions)
    ensures BoardWeight(next) < BoardWeight(board)
  {
    if board.done < |board.internal| {
      var ev := board.internal[board.done].event;
      SiblingScriptWeighs(board.local, Orientation(b), ev);
      assert Undone(board)[1..] == Undone(next);
      assert UndonePeers(board) == UndonePeers(next);
    } else {
      var ev := board.external[board.done - |board.internal|].event;
      PeerScriptWeighs(board.local, Orientation(b), ev);
      assert Undone(board) == [] && Undone(next) == [];
      assert UndonePeers(board) == board.external[board.done - |board.internal|..];
      assert UndonePeers(board)[1..] == UndonePeers(next);
    }
  }

  // ---------- the other steps ----------

  lemma SendWeighs(n: Node, b: nat, m: Msg)
    requires Shape(n) && b < |n.boards| && !(m.Token? && m.sync.Request?)
    ensures Measure(Send(n, b, m)) <= Measure(n) + 6 * MsgWeight(m, false)
  {
    SendCosts(n, b, m);
    SameBoardsWeigh(n, Send(n, b, m));
  }

  /** The head of a script weighs on its board until it is carried out; the table does not. */
  lemma HeadWeighs(board: Board, table: Table, version: nat)
    requires board.script != []
    ensures BoardWeight(board.(script := board.script[1..], table := table, version := version))
            + ActionWeight(board.script[0]) == BoardWeight(board)
  {
    var next := board.(script := board.script[1..], table := table, version := version);
    assert Undone(next) == Undone(board) && UndonePeers(next) == UndonePeers(board);
  }

  lemma RefreshCosts(n: Node, b: nat)
    requires Enabled(n, ActStep(b)) && n.boards[b].script[0].Refresh?
    ensures Measure(Act(n, b)) < Measure(n)
  {
    var board := n.boards[b].(script := n.boards[b].script[1..]);
    HeadWeighs(n.boards[b], board.table, board.version);
    PutBoardCosts(n, b, board);
    SendWeighs(PutBoard(n, b, board), b, Copy(board.table, board.version));
  }

  lemma TellCosts(n: Node, b: nat)
    requires Enabled(n, ActStep(b)) && n.boards[b].script[0].Tell?
    ensures Measure(Act(n, b)) < Measure(n)
  {
    var board := n.boards[b].(script := n.boards[b].script[1..]);
    HeadWeighs(n.boards[b], board.table, board.version);
    PutBoardCosts(n, b, board);
    SendWeighs(PutBoard(n, b, board), b, Event(n.boards[b].script[0].event));
  }

  lemma ToPeerCosts(n: Node, b: nat)
    requires Enabled(n, ActStep(b)) && n.boards[b].script[0].ToPeer?
    ensures Measure(Act(n, b)) < Measure(n)
  {
    var board := n.boards[b].(script := n.boards[b].script[1..]);
    HeadWeighs(n.boards[b], board.table, board.version);
    PutBoardCosts(n, b, board);
  }

  lemma ActCosts(n: Node, b: nat)
    requires Enabled(n, ActStep(b))
    ensures Measure(Act(n, b)) < Measure(n)
  {
    match n.boards[b].script[0] {
      case Edit(op) => EditCosts(n, b, n.boards[b].(script := n.boards[b].script[1..]), op);
      case Refresh => RefreshCosts(n, b);
      case Tell(_) => TellCosts(n, b);
      case ToPeer(_) => ToPeerCosts(n, b);
    }
  }

  lemma EditCosts(n: Node, b: nat, board: Board, op: Op)
    requires Enabled(n, ActStep(b)) && n.boards[b].script[0] == Edit(op)
    requires board == n.boards[b].(script := n.boards[b].script[1..])
    ensures Measure(Act(n, b)) < Measure(n)
  {
    var table, version := Apply(board.table, op), |n.log| + 1;
    var edited := PutBoard(n, b, board.(table := table, version := version));
    var logged := edited.(log := n.log + [op]);
    HeadWeighs(n.boards[b], table, version);
    PutBoardCosts(n, b, board.(table := table, version := version));
    assert Inboxes(logged) == Inboxes(edited) && Components(logged) == Components(edited)
      && Boards(logged) == Boards(edited);
    SendWeighs(logged, b, Copy(table, version));
  }

  lemma ExitCosts(n: Node, b: nat)
    requires TokenOk(n) && InsideOk(n) && Enabled(n, ExitStep(b))
    ensures Measure(Exit(n, b)) < Measure(n)
  {
    var left := Leave(n, b);
    PutBoardCosts(n, b, left.boards[b]);
    assert Undone(left.boards[b]) == [];
    BoardsDoNotMatter(n, left);
    PassOnCosts(left, b, ROUTING);
    SameBoardsWeigh(left, Exit(n, b));
  }

  lemma PaidWeighsLess(board: Board, id: nat)
    requires id in board.owed
    ensures BoardWeight(board.(owed := board.owed - {id})) + REQUESTED + 1 == BoardWeight(board)
  {
    assert |board.owed - {id}| == |board.owed| - 1;
    assert Undone(board.(owed := board.owed - {id})) == Undone(board);
  }

  lemma OwedCosts(n: Node, b: nat, id: nat)
    requires TokenOk(n) && Enabled(n, OwedStep(b, id))
    ensures Measure(RequestOwed(n, b, id)) < Measure(n)
  {
    var paid := Pay(n, b, id);
    PaidWeighsLess(n.boards[b], id);
    PutBoardCosts(n, b, n.boards[b].(owed := n.boards[b].owed - {id}));
    BoardsDoNotMatter(n, paid);
    RequestCosts(paid, b, ROUTING);
    SameBoardsWeigh(paid, RequestOwed(n, b, id));
  }

  /** Every step that a board takes by itself brings the node nearer to rest. */
  lemma InternalStepCosts(n: Node, step: Step)
    requires TokenOk(n) && InsideOk(n) && CursorOk(n) && IsInternal(step) && Enabled(n, step)
    ensures Measure(Next(n, step)) < Measure(n)
  {
    match step {
      case ReceiveStep(b) => ReceiveCosts(n, b);
      case DispatchStep(b) => DispatchCosts(n, b);
      case ActStep(b) => ActCosts(n, b);
      case ExitStep(b) => ExitCosts(n, b);
      case OwedStep(b, id) => OwedCosts(n, b, id);
    }
  }

  // ---------- runs ----------

  lemma ZeroDependsOn(n: Node, r: Node)
    requires CursorOk(n) && SameShape(n, r)
    requires forall b :: 0 <= b < |n.boards| ==>
               || r.boards[b].inside || r.boards[b].done == 0
               || (r.boards[b].done == n.boards[b].done && !n.boards[b].inside)
    ensures CursorOk(r)
  {}

  lemma ReceiveKeepsZero(n: Node, b: nat)
    requires CursorOk(n) && Enabled(n, ReceiveStep(b))
    ensures CursorOk(Receive(n, b))
  {
    forall a | 0 <= a < |n.boards|
      ensures || Receive(n, b).boards[a].inside || Receive(n, b).boards[a].done == 0
              || (Receive(n, b).boards[a].done == n.boards[a].done && !n.boards[a].inside)
    {
      ReceiveEntersOrStays(n, b, a);
    }
    ZeroDependsOn(n, Receive(n, b));
  }

  lemma ReceiveEntersOrStays(n: Node, b: nat, a: nat)
    requires Enabled(n, ReceiveStep(b)) && a < |n.boards|
    ensures var board, next := n.boards[a], Receive(n, b).boards[a];
            next.inside || (next.done == board.done && !board.inside)
  {}

  lemma ActKeepsZero(n: Node, b: nat)
    requires CursorOk(n) && Enabled(n, ActStep(b))
    ensures CursorOk(Act(n, b))
  {
    ZeroDependsOn(n, Act(n, b));
  }

  lemma TickKeepsZero(n: Node, dt: U32)
    requires CursorOk(n) && Enabled(n, TickStep(dt))
    ensures CursorOk(TickCenter(n, dt))
  {
    ZeroDependsOn(n, TickCenter(n, dt));
  }

  lemma StepKeepsZero(n: Node, step: Step)
    requires CursorOk(n) && Enabled(n, step)
    ensures CursorOk(Next(n, step))
  {
    match step {
      case ReceiveStep(b) => ReceiveKeepsZero(n, b);
      case DispatchStep(b) => ZeroDependsOn(n, Dispatch(n, b));
      case ActStep(b) => ActKeepsZero(n, b);
      case ExitStep(b) => ZeroDependsOn(n, Exit(n, b));
      case PeerStep(b, ev) => ZeroDependsOn(n, PeerArrives(n, b, ev));
      case OwedStep(b, id) => ZeroDependsOn(n, RequestOwed(n, b, id));
      case RequestStep(b, cs) => ZeroDependsOn(n, RequestBy(n, b, cs));
      case TickStep(dt) => TickKeepsZero(n, dt);
    }
  }

  predicate AllInternal(steps: seq<Step>) {
    forall i :: 0 <= i < |steps| ==> IsInternal(steps[i])
  }

  lemma StepKeepsSettled(n: Node, step: Step)
    requires TokenOk(n) && InsideOk(n) && CursorOk(n) && Enabled(n, step)
    ensures var r := Next(n, step); TokenOk(r) && InsideOk(r) && CursorOk(r)
  {
    StepKeepsToken(n, step);
    StepKeepsInside(n, step);
    StepKeepsZero(n, step);
  }

  lemma {:induction false} InternalRunIsBounded(n: Node, steps: seq<Step>)
    requires TokenOk(n) && InsideOk(n) && CursorOk(n) && IsRun(n, steps) && AllInternal(steps)
    ensures |steps| <= Measure(n)
    decreases |steps|
  {
    if steps != [] {
      InternalStepCosts(n, steps[0]);
      StepKeepsSettled(n, steps[0]);
      InternalRunIsBounded(Next(n, steps[0]), steps[1..]);
    }
  }

  lemma {:induction false} RunKeepsZero(n: Node, steps: seq<Step>)
    requires CursorOk(n) && IsRun(n, steps)
    ensures CursorOk(After(n, steps))
    decreases |steps|
  {
    if steps != [] {
      StepKeepsZero(n, steps[0]);
      RunKeepsZero(Next(n, steps[0]), steps[1..]);
    }
  }

  lemma StuckAfterRun(n: Node, steps: seq<Step>)
    requires TokenOk(n) && InsideOk(n) && NoneForgotten(n) && CursorsInRange(n) && IsRun(n, steps)
    requires Stuck(After(n, steps))
    ensures AtRest(After(n, steps))
  {
    RunKeepsToken(n, steps);
    RunForgetsNone(n, steps);
    RunKeepsCursors(n, steps);
    StuckIsAtRest(After(n, steps));
  }

  lemma ReachedIsOk(size: nat, center: Role, steps: seq<Step>)
    requires 2 <= size <= 7 && IsRun(Start(size, center), steps)
    ensures var n := After(Start(size, center), steps);
            TokenOk(n) && InsideOk(n) && NoneForgotten(n) && CursorsInRange(n) && CursorOk(n)
  {
    var start := Start(size, center);
    StartIsOk(size, center);
    forall b | 0 <= b < size ensures start.boards[b].done == 0 {}
    RunKeepsToken(start, steps);
    RunForgetsNone(start, steps);
    RunKeepsCursors(start, steps);
    RunKeepsZero(start, steps);
  }

  /** From every reachable state, a run of the boards' own steps, in any order, is no longer than the measure of that
      state; and where such a run cannot go on, the node is at rest: every event that was queued or on its way has
      been dispatched or, where a queue was full, dropped with a panic. */
  lemma NodeComesToRest(size: nat, center: Role, steps: seq<Step>, own: seq<Step>)
    requires 2 <= size <= 7 && IsRun(Start(size, center), steps) && IsRun(After(Start(size, center), steps), own)
    requires AllInternal(own)
    ensures var n := After(Start(size, center), steps);
            && |own| <= Measure(n)
            && (Stuck(After(n, own)) ==> AtRest(After(n, own)))
  {
    ReachedIsOk(size, center, steps);
    InternalRunIsBounded(After(Start(size, center), steps), own);
    if Stuck(After(After(Start(size, center), steps), own)) { StuckAfterRun(After(Start(size, center), steps), own); }
  }
}
