/** Provisioning of a node whose center is a home device: over every run at most one board provisions the node, and a
    node at rest is provisioned on all boards alike or on none. */
module Provisioning {
  import opened Fifo
  import opened Networks
  import opened NodeSystem
  import opened ReplicatedLog
  import opened Roles
  import opened RoutingTables
  import opened Sync

  // ---------- provisions on their way ----------

  predicate InInbox(q: seq<Msg>) {
    q != [] && ((q[0].Event? && q[0].event.Provision?) || InInbox(q[1..]))
  }

  predicate InQueue(q: seq<Queued<SiblEvent>>) {
    q != [] && (q[0].event.Provision? || InQueue(q[1..]))
  }

  predicate InScript(q: seq<Action>) {
    q != [] && ((q[0].Tell? && q[0].event.Provision?) || InScript(q[1..]))
  }

  lemma {:induction false} InInboxAppend(q: seq<Msg>, m: Msg)
    ensures InInbox(q + [m]) <==> InInbox(q) || (m.Event? && m.event.Provision?)
  {
    if q != [] {
      assert (q + [m])[1..] == q[1..] + [m];
      InInboxAppend(q[1..], m);
    }
  }

  lemma {:induction false} InQueueAppend(q: seq<Queued<SiblEvent>>, e: Queued<SiblEvent>)
    ensures InQueue(q + [e]) <==> InQueue(q) || e.event.Provision?
  {
    if q != [] {
      assert (q + [e])[1..] == q[1..] + [e];
      InQueueAppend(q[1..], e);
    }
  }

  lemma {:induction false} QuietHasNoProvision(q: seq<Msg>)
    requires Quiet(q)
    ensures !InInbox(q)
  {
    if q != [] { QuietHasNoProvision(q[1..]); }
  }

  /** The sibling events still to be dispatched. */
  function Undone(board: Board): seq<Queued<SiblEvent>> {
    if board.done <= |board.internal| then board.internal[board.done..] else []
  }

  /** Every provision on its way provides `net`. */
  predicate InboxProvides(q: seq<Msg>, net: Network) {
    forall i :: 0 <= i < |q| ==> (q[i].Event? && q[i].event.Provision? ==> q[i].event.network == net)
  }

  predicate QueueProvides(q: seq<Queued<SiblEvent>>, net: Network) {
    forall i :: 0 <= i < |q| ==> (q[i].event.Provision? ==> q[i].event.network == net)
  }

  predicate ScriptProvides(q: seq<Action>, net: Network) {
    forall i :: 0 <= i < |q| ==> (q[i].Tell? && q[i].event.Provision? ==> q[i].event.network == net)
  }

  // ---------- what every step keeps ----------

  predicate RolesOk(n: Node) {
    && Shape(n)
    && (forall b :: 0 <= b < Center(n) ==> n.boards[b].local.role.Forwarder?)
    && n.boards[Center(n)].local.role.Home?
  }

  /** Nothing is dispatched outside the critical section. */
  predicate CursorOk(n: Node) {
    forall b :: 0 <= b < |n.boards| ==> (!n.boards[b].inside ==> n.boards[b].done == 0)
  }

  /** A board that no provision has reached. */
  predicate Fresh(l: Local) {
    && l.settings == UNSET
    && match l.role
       case Forwarder(s) => s.global == WithoutNetwork && s.nodeNetwork == NONE
       case Home(isProvisioned) => !isProvisioned
       case Root(_) => false
  }

  /** A board provisioned with its share of `net`. */
  predicate Holds(l: Local, b: nat, net: Network)
    requires b < 7
  {
    && l.settings == GetNodeSubnet(net, Orientation(b))
    && match l.role
       case Forwarder(s) => s.global == WithNetwork && s.nodeNetwork == net && s.deviceNetwork == l.settings
       case Home(isProvisioned) => isProvisioned
       case Root(_) => false
  }

  predicate NetworkIs(l: Local, net: Network) {
    l.role.Forwarder? ==> l.role.fwd.nodeNetwork == NONE || l.role.fwd.nodeNetwork == net
  }

  predicate LacksNetwork(l: Local) {
    l.role.Forwarder? && l.role.fwd.global == WithoutNetwork
  }

  /** Board state while no one has provisioned the node. */
  predicate Untouched(board: Board, q: seq<Msg>, calm: bool) {
    && !InInbox(q) && !InQueue(board.internal) && !InScript(board.script)
    && NetworkIs(board.local, NONE)
    && (board.local.role.Home? ==> !board.local.role.isProvisioned)
    && (calm ==> Fresh(board.local))
  }

  /** Board `b` once `provider` has provisioned the node with `net`; `announcing` while the provider's handler has not
      sent its provision yet. */
  predicate Touched(board: Board, q: seq<Msg>, b: nat, provider: nat, announcing: bool, net: Network, calm: bool)
    requires b < 7
  {
    && InboxProvides(q, net) && QueueProvides(board.internal, net) && ScriptProvides(board.script, net)
    && (b != provider ==> !InScript(board.script))
    && NetworkIs(board.local, net)
    && var coming := b != provider && (announcing || InInbox(q) || InQueue(Undone(board)));
    && (LacksNetwork(board.local) ==> coming)
    && (calm ==> Holds(board.local, b, net) || (coming && Fresh(board.local)))
  }

  predicate AllTouched(n: Node, provider: nat, net: Network)
    requires Shape(n)
  {
    && provider < Center(n)
    && forall b :: 0 <= b < |n.boards| ==>
         Touched(n.boards[b], n.inbox[b], b, provider, InScript(n.boards[provider].script), net, n.calm)
  }

  predicate NetworkOk(n: Node)
    requires Shape(n)
  {
    if n.provisioners == [] then forall b :: 0 <= b < |n.boards| ==> Untouched(n.boards[b], n.inbox[b], n.calm)
    else |n.provisioners| == 1 && AllTouched(n, n.provisioners[0].0, n.provisioners[0].1)
  }

  /** In a calm run only start and provision events travel between boards, only connects and handshakes from peers. */
  predicate CalmBoard(board: Board, q: seq<Msg>) {
    && (forall i :: 0 <= i < |q| ==> (q[i].Event? ==> q[i].event.Provision?))
    && (forall i :: 0 <= i < |board.internal| ==>
      board.internal[i].event.OnStart? || board.internal[i].event.Provision?)
    && (forall i :: 0 <= i < |board.external| ==>
      board.external[i].event.Connected? || board.external[i].event.Handshake?)
    && (forall i :: 0 <= i < |board.script| ==> (board.script[i].Tell? ==> board.script[i].event.Provision?))
  }

  predicate CalmOk(n: Node)
    requires Shape(n)
  {
    n.calm ==> forall b :: 0 <= b < |n.boards| ==> CalmBoard(n.boards[b], n.inbox[b])
  }

  predicate ProvisioningOk(n: Node) {
    && RolesOk(n) && CursorOk(n) && CalmOk(n)
    && (n.panicked || NetworkOk(n))
  }

  // ---------- token traffic ----------

  /** The inboxes gained at most one token message each. */
  ghost predicate OnlyTokensAdded(n: Node, r: Node) {
    && SameBoards(n, r)
    && forall b :: 0 <= b < |n.boards| ==>
         r.inbox[b] == n.inbox[b] || exists t :: r.inbox[b] == n.inbox[b] + [Token(t)]
  }

  lemma RequestAddsTokens(n: Node, b: nat, cs: ComponentId)
    requires Shape(n) && b < |n.boards|
    ensures OnlyTokensAdded(n, RequestBy(n, b, cs))
  {
    var r := RequestBy(n, b, cs);
    forall a | 0 <= a < |n.boards|
      ensures r.inbox[a] == n.inbox[a] || exists t :: r.inbox[a] == n.inbox[a] + [Token(t)]
    {
      if r.inbox[a] != n.inbox[a] {
        assert r.inbox[a] == n.inbox[a] + [Token(if b == Center(n) then Grant(cs, FIRST) else Request(cs))];
      }
    }
  }

  lemma PassOnAddsTokens(n: Node, b: nat, cs: ComponentId)
    requires Shape(n) && b < |n.boards|
    ensures OnlyTokensAdded(n, PassOn(n, b, cs))
  {
    var r := PassOn(n, b, cs);
    forall a | 0 <= a < |n.boards|
      ensures r.inbox[a] == n.inbox[a] || exists t :: r.inbox[a] == n.inbox[a] + [Token(t)]
    {
      if r.inbox[a] != n.inbox[a] {
        assert r.inbox[a] == n.inbox[a]
          + [Token(Grant(cs, if b == Center(n) then FIRST else NextDevice(Orientation(b), |n.boards|)))];
      }
    }
  }

  lemma TokenKeepsBoard(board: Board, q: seq<Msg>, t: SyncMsg, b: nat, provider: nat, announcing: bool, net: Network,
      calm: bool)
    requires b < 7
    ensures CalmBoard(board, q) ==> CalmBoard(board, q + [Token(t)])
    ensures Untouched(board, q, calm) ==> Untouched(board, q + [Token(t)], calm)
    ensures Touched(board, q, b, provider, announcing, net, calm)
            ==> Touched(board, q + [Token(t)], b, provider, announcing, net, calm)
  {
    InInboxAppend(q, Token(t));
  }

  lemma TokensKeepProvisioning(n: Node, r: Node)
    requires ProvisioningOk(n) && OnlyTokensAdded(n, r)
    ensures ProvisioningOk(r)
  {
    var (p, net) := if n.provisioners == [] then (0, NONE) else n.provisioners[0];
    var announcing := p < |n.boards| && InScript(n.boards[p].script);
    forall b | 0 <= b < |n.boards|
      ensures n.calm ==> CalmBoard(r.boards[b], r.inbox[b])
      ensures Untouched(n.boards[b], n.inbox[b], n.calm) ==> Untouched(r.boards[b], r.inbox[b], n.calm)
      ensures Touched(n.boards[b], n.inbox[b], b, p, announcing, net, n.calm)
              ==> Touched(r.boards[b], r.inbox[b], b, p, announcing, net, n.calm)
    {
      if r.inbox[b] != n.inbox[b] {
        var t :| r.inbox[b] == n.inbox[b] + [Token(t)];
        TokenKeepsBoard(n.boards[b], n.inbox[b], t, b, p, announcing, net, n.calm);
      }
    }
  }

  // ---------- one board changes ----------

  /** Only board `b` and its inbox differ, and its part of the invariant is kept. */
  lemma OneBoardKeeps(n: Node, r: Node, b: nat)
    requires ProvisioningOk(n) && SameShape(n, r) && b < |n.boards|
    requires forall a :: 0 <= a < |n.boards| && a != b ==> r.boards[a] == n.boards[a] && r.inbox[a] == n.inbox[a]
    requires r.provisioners == n.provisioners && r.panicked == n.panicked && r.calm == n.calm
    requires r.boards[b].local.role.Forwarder? <==> n.boards[b].local.role.Forwarder?
    requires r.boards[b].local.role.Home? <==> n.boards[b].local.role.Home?
    requires !r.boards[b].inside ==> r.boards[b].done == 0
    requires n.calm ==> CalmBoard(r.boards[b], r.inbox[b])
    requires InScript(r.boards[b].script) <==> InScript(n.boards[b].script)
    requires !n.panicked && n.provisioners == [] ==> Untouched(r.boards[b], r.inbox[b], n.calm)
    requires !n.panicked && n.provisioners != [] ==>
               var (p, net) := n.provisioners[0];
               Touched(r.boards[b], r.inbox[b], b, p, p < |n.boards| && InScript(n.boards[p].script), net, n.calm)
    ensures ProvisioningOk(r)
  {}

  lemma PanicKeeps(n: Node)
    requires ProvisioningOk(n)
    ensures ProvisioningOk(n.(panicked := true))
  {}

  // ---------- receiving ----------

  lemma ShorterInbox(board: Board, q: seq<Msg>, b: nat, provider: nat, announcing: bool, net: Network, calm: bool)
    requires b < 7 && q != [] && !(q[0].Event? && q[0].event.Provision?)
    ensures CalmBoard(board, q) ==> CalmBoard(board, q[1..])
    ensures Untouched(board, q, calm) ==> Untouched(board, q[1..], calm)
    ensures Touched(board, q, b, provider, announcing, net, calm)
            ==> Touched(board, q[1..], b, provider, announcing, net, calm)
  {}

  /** Popping a message that is not a provision, and perhaps changing fields that provisioning does not look at. */
  lemma PopKeeps(n: Node, b: nat, r: Node)
    requires ProvisioningOk(n) && b < |n.boards| && n.inbox[b] != [] && SameShape(n, r)
    requires !(n.inbox[b][0].Event? && n.inbox[b][0].event.Provision?)
    requires r.inbox == Pop(n.inbox, b)
    requires r.boards == n.boards[b := n.boards[b].(table := r.boards[b].table, version := r.boards[b].version)]
    requires r.provisioners == n.provisioners && r.panicked == n.panicked && r.calm == n.calm
    ensures ProvisioningOk(r)
  {
    var (p, net) := if n.provisioners == [] then (0, NONE) else n.provisioners[0];
    ShorterInbox(n.boards[b], n.inbox[b], b, p, p < |n.boards| && InScript(n.boards[p].script), net, n.calm);
    OneBoardKeeps(n, r, b);
  }

  function Queueing(board: Board, ev: SiblEvent): Board {
    board.(internal := board.internal + [Queued(board.nextId, ev)], nextId := board.nextId + 1)
  }

  /** An event moves from the inbox to the internal queue. */
  lemma EventMoves(board: Board, q: seq<Msg>, b: nat, provider: nat, announcing: bool, net: Network, calm: bool)
    requires b < 7 && q != [] && q[0].Event? && board.done == 0
    ensures var next := Queueing(board, q[0].event);
            && (CalmBoard(board, q) ==> CalmBoard(next, q[1..]))
            && (Untouched(board, q, calm) ==> Untouched(next, q[1..], calm))
            && (Touched(board, q, b, provider, announcing, net, calm)
                ==> Touched(next, q[1..], b, provider, announcing, net, calm))
  {
    InQueueAppend(board.internal, Queued(board.nextId, q[0].event));
    var next := Queueing(board, q[0].event);
    assert next.internal[0..] == next.internal && board.internal[0..] == board.internal;
  }

  lemma QueuesOne(n: Node, b: nat)
    requires Enabled(n, ReceiveStep(b)) && n.inbox[b][0].Event?
    ensures var r := QueueEvent(n.(inbox := Pop(n.inbox, b)), b, n.inbox[b][0].event);
            && r.boards == n.boards[b := Queueing(n.boards[b], n.inbox[b][0].event)]
            && r.inbox == n.inbox[b := n.inbox[b][1..]]
            && r.provisioners == n.provisioners && r.panicked == n.panicked && r.calm == n.calm
  {}

  lemma QueueingKeeps(n: Node, b: nat)
    requires ProvisioningOk(n) && Enabled(n, ReceiveStep(b)) && n.inbox[b][0].Event?
    ensures ProvisioningOk(QueueEvent(n.(inbox := Pop(n.inbox, b)), b, n.inbox[b][0].event))
  {
    var (p, net) := if n.provisioners == [] then (0, NONE) else n.provisioners[0];
    var r := QueueEvent(n.(inbox := Pop(n.inbox, b)), b, n.inbox[b][0].event);
    EventMoves(n.boards[b], n.inbox[b], b, p, p < |n.boards| && InScript(n.boards[p].script), net, n.calm);
    QueuesOne(n, b);
    OneBoardKeeps(n, r, b);
  }

  /** Dropping an event is a panic, which ends what is said about networks. */
  lemma DroppingKeeps(n: Node, b: nat)
    requires ProvisioningOk(n) && b < |n.boards| && n.inbox[b] != []
    ensures ProvisioningOk(n.(inbox := Pop(n.inbox, b), panicked := true))
  {}

  lemma EventKeeps(n: Node, b: nat)
    requires ProvisioningOk(n) && Enabled(n, ReceiveStep(b)) && n.inbox[b][0].Event?
    ensures ProvisioningOk(Receive(n, b))
  {
    if |n.boards[b].internal| < QUEUE_CAPACITY {
      QueueingKeeps(n, b);
      var queued := QueueEvent(n.(inbox := Pop(n.inbox, b)), b, n.inbox[b][0].event);
      RequestAddsTokens(queued, b, ROUTING);
      TokensKeepProvisioning(queued, RequestBy(queued, b, ROUTING));
    } else {
      DroppingKeeps(n, b);
    }
  }

  lemma EnterKeeps(n: Node, b: nat)
    requires ProvisioningOk(n) && b < |n.boards| && !n.boards[b].inside
    ensures ProvisioningOk(Enter(n, b))
  {
    OneBoardKeeps(n, Enter(n, b), b);
  }

  lemma ComponentsDoNotMatter(n: Node, r: Node)
    requires ProvisioningOk(n) && SameBoards(n, r) && r.inbox == n.inbox
    ensures ProvisioningOk(r)
  {}

  lemma ReceiveKeeps(n: Node, b: nat)
    requires ProvisioningOk(n) && Enabled(n, ReceiveStep(b))
    ensures ProvisioningOk(Receive(n, b))
  {
    var popped := n.(inbox := Pop(n.inbox, b));
    match n.inbox[b][0] {
      case Token(Grant(cs, destination)) =>
        PopKeeps(n, b, popped);
        if destination == Orientation(b) {
          var taken := Take(n, b, cs);
          ComponentsDoNotMatter(popped, taken);
          if cs == ROUTING {
            EnterKeeps(taken, b);
          } else {
            PassOnAddsTokens(taken, b, cs);
            TokensKeepProvisioning(taken, PassOn(taken, b, cs));
          }
        }
      case Token(Request(cs)) =>
        PopKeeps(n, b, popped);
        if b == Center(n) {
          RequestAddsTokens(popped, b, cs);
          TokensKeepProvisioning(popped, RequestBy(popped, b, cs));
        }
      case Event(_) => EventKeeps(n, b);
      case Copy(_, _) => PopKeeps(n, b, Receive(n, b));
    }
  }

  // ---------- dispatching ----------

  predicate CalmScript(script: seq<Action>) {
    forall i :: 0 <= i < |script| ==> (script[i].Tell? ==> script[i].event.Provision?)
  }

  lemma {:induction false} NoTellsNoProvision(script: seq<Action>)
    requires forall i :: 0 <= i < |script| ==> !(script[i].Tell? && script[i].event.Provision?)
    ensures !InScript(script)
  {
    if script != [] { NoTellsNoProvision(script[1..]); }
  }

  lemma {:induction false} NoProvisionProvidesAny(script: seq<Action>, net: Network)
    requires !InScript(script)
    ensures ScriptProvides(script, net)
  {
    if script != [] {
      NoProvisionProvidesAny(script[1..], net);
      assert forall i :: 1 <= i < |script| ==> script[i] == script[1..][i - 1];
    }
  }

  predicate SameKind(l: Local, r: Local) {
    (l.role.Forwarder? <==> r.role.Forwarder?) && (l.role.Home? <==> r.role.Home?)
  }

  /** What a sibling event does to a board's provisioning. */
  lemma SiblingEffect(l: Local, b: nat, ev: SiblEvent, net: Network)
    requires b < 7 && !l.role.Root? && (ev.Provision? ==> ev.network == net)
    ensures var o := HandleSibling(l, Orientation(b), ev);
            && SameKind(l, o.local) && !InScript(o.actions)
            && (NetworkIs(l, net) ==> NetworkIs(o.local, net))
            && (NetworkIs(l, NONE) && !ev.Provision? ==> NetworkIs(o.local, NONE))
            && (l.role.Home? && !ev.Provision? ==> o.local == l)
            && (LacksNetwork(o.local) ==> LacksNetwork(l) && !ev.Provision?)
            && (ev.OnStart? ==> o.local == l)
            && (ev.Provision? && Holds(l, b, net) ==> Holds(o.local, b, net))
            && (ev.Provision? && Fresh(l) ==> Holds(o.local, b, net))
            && (ev.OnStart? || ev.Provision? ==> CalmScript(o.actions))
  {
    var o := HandleSibling(l, Orientation(b), ev);
    NoTellsNoProvision(o.actions);
  }

  /** What a peer event that does not provision does. */
  lemma PeerEffect(l: Local, b: nat, ev: PeerEvent, net: Network)
    requires b < 7 && !l.role.Root? && !(ev.Handshake? && LacksNetwork(l))
    ensures var o := HandlePeer(l, Orientation(b), ev);
            && SameKind(l, o.local) && !InScript(o.actions)
            && (NetworkIs(l, net) ==> NetworkIs(o.local, net))
            && (l.role.Home? ==> o.local == l)
            && (LacksNetwork(o.local) ==> LacksNetwork(l))
            && (ev.Handshake? ==> o.local == l)
            && (ev.Connected? && Holds(l, b, net) ==> Holds(o.local, b, net))
            && (ev.Connected? && Fresh(l) ==> Fresh(o.local))
            && (ev.Connected? || ev.Handshake? ==> CalmScript(o.actions))
  {
    var o := HandlePeer(l, Orientation(b), ev);
    if ev.GatewayRequest? && l.role.Forwarder? {
      HagEditsEditOnly(ev.hags, Orientation(b), if ev.hags[0].addr == 0 then 0 else PATH_CAPACITY);
    }
    NoTellsNoProvision(o.actions);
  }

  /** The board after its next event. */
  function Dispatched(board: Board, b: nat): Board
    requires b < 7 && board.done < Total(board)
  {
    var o := NextOutcome(board, Orientation(b));
    board.(local := o.local, done := board.done + 1, script := o.actions)
  }

  lemma {:induction false} InQueueMember(q: seq<Queued<SiblEvent>>, i: nat)
    requires i < |q| && q[i].event.Provision?
    ensures InQueue(q)
  {
    if i > 0 { InQueueMember(q[1..], i - 1); }
  }

  lemma UndoneStep(board: Board)
    requires board.done < |board.internal|
    ensures var e, rest := board.internal[board.done], board.internal[board.done + 1..];
            Undone(board) == [e] + rest && (InQueue(Undone(board)) <==> e.event.Provision? || InQueue(rest))
  {
    assert Undone(board)[1..] == board.internal[board.done + 1..];
  }

  lemma SiblingDispatchKeeps(board: Board, q: seq<Msg>, b: nat, provider: nat, net: Network, calm: bool)
    requires b < 7 && board.done < |board.internal| && !board.local.role.Root? && board.script == []
    requires calm ==> CalmBoard(board, q)
    ensures var next := Dispatched(board, b);
            && SameKind(board.local, next.local) && !InScript(next.script) && (calm ==> CalmBoard(next, q))
            && (Untouched(board, q, calm) ==> Untouched(next, q, calm))
            && forall announcing :: Touched(board, q, b, provider, announcing, net, calm)
                                    ==> Touched(next, q, b, provider, announcing, net, calm)
  {
    var e, next := board.internal[board.done].event, Dispatched(board, b);
    UndoneStep(board);
    if Untouched(board, q, calm) {
      if e.Provision? { InQueueMember(board.internal, board.done); }
      SiblingEffect(board.local, b, e, NONE);
    }
    if QueueProvides(board.internal, net) { SiblingEffect(board.local, b, e, net); }
    if e.Provision? { SiblingEffect(board.local, b, e, e.network); } else { SiblingEffect(board.local, b, e, net); }
  }

  lemma PeerDispatchKeeps(board: Board, q: seq<Msg>, b: nat, provider: nat, net: Network, calm: bool)
    requires b < 7 && |board.internal| <= board.done < Total(board) && !board.local.role.Root? && board.script == []
    requires calm ==> CalmBoard(board, q)
    requires !Provisions(board)
    ensures var next := Dispatched(board, b);
            && SameKind(board.local, next.local) && !InScript(next.script) && (calm ==> CalmBoard(next, q))
            && (Untouched(board, q, calm) ==> Untouched(next, q, calm))
            && forall announcing :: Touched(board, q, b, provider, announcing, net, calm)
                                    ==> Touched(next, q, b, provider, announcing, net, calm)
  {
    var e := board.external[board.done - |board.internal|].event;
    assert Undone(board) == [] && Undone(Dispatched(board, b)) == [];
    PeerEffect(board.local, b, e, net);
    PeerEffect(board.local, b, e, NONE);
    NoProvisionProvidesAny(Dispatched(board, b).script, net);
  }

  /** Dispatching changes one board, and the record of who provisions. */
  lemma DispatchIs(n: Node, b: nat)
    requires Enabled(n, DispatchStep(b))
    ensures var r, board := Dispatch(n, b), n.boards[b];
            && SameShape(n, r) && r.inbox == n.inbox && r.panicked == n.panicked && r.calm == n.calm
            && r.boards == n.boards[b := Dispatched(board, b)] && r.boards[b].inside == board.inside
            && r.provisioners == n.provisioners + if Provisions(board) then [(b, ProvidedNow(board))] else []
  {}

  lemma QuietBoardKeeps(n: Node, b: nat, p: nat, net: Network)
    requires ProvisioningOk(n) && Enabled(n, DispatchStep(b)) && !Provisions(n.boards[b])
    ensures var board, next, q := n.boards[b], Dispatched(n.boards[b], b), n.inbox[b];
            && SameKind(board.local, next.local) && !InScript(next.script) && (n.calm ==> CalmBoard(next, q))
            && (Untouched(board, q, n.calm) ==> Untouched(next, q, n.calm))
            && forall announcing :: Touched(board, q, b, p, announcing, net, n.calm)
                                    ==> Touched(next, q, b, p, announcing, net, n.calm)
  {
    var board := n.boards[b];
    if board.done < |board.internal| { SiblingDispatchKeeps(board, n.inbox[b], b, p, net, n.calm); }
    else { PeerDispatchKeeps(board, n.inbox[b], b, p, net, n.calm); }
  }

  /** An event that does not provision is dispatched. */
  lemma QuietDispatchKeeps(n: Node, b: nat)
    requires ProvisioningOk(n) && Enabled(n, DispatchStep(b)) && !Provisions(n.boards[b])
    ensures ProvisioningOk(Dispatch(n, b))
  {
    var (p, net) := if n.provisioners == [] then (0, NONE) else n.provisioners[0];
    QuietBoardKeeps(n, b, p, net);
    DispatchIs(n, b);
    OneBoardKeeps(n, Dispatch(n, b), b);
  }

  /** The board inside has received everything sent before its grant, and no other board is in the middle of a
      handler. */
  lemma InsideIsUpToDate(n: Node, b: nat)
    requires AllOk(n) && b < |n.boards| && n.boards[b].inside
    ensures !InInbox(n.inbox[b])
    ensures forall a :: 0 <= a < |n.boards| && a != b ==> !InScript(n.boards[a].script)
  {
    assert n.components[ROUTING].token == Held(b);
    QuietHasNoProvision(n.inbox[b]);
  }

  /** Once a board has provisioned the node, no board inside the critical section that has dispatched its sibling events
      lacks a network: the provision reached it before its grant did. */
  lemma NoSecondProvisioner(n: Node, b: nat)
    requires AllOk(n) && ProvisioningOk(n) && !n.panicked && b < |n.boards| && Provisions(n.boards[b])
        && n.boards[b].inside
    ensures n.provisioners == []
  {
    InsideIsUpToDate(n, b);
    NothingUndone(n.boards[b]);
  }

  lemma NothingUndone(board: Board)
    requires |board.internal| <= board.done
    ensures !InQueue(Undone(board))
  {}

  lemma {:induction false} NoProvisionInInbox(q: seq<Msg>, net: Network)
    requires !InInbox(q)
    ensures InboxProvides(q, net)
  {
    if q != [] {
      NoProvisionInInbox(q[1..], net);
      assert forall i :: 1 <= i < |q| ==> q[i] == q[1..][i - 1];
    }
  }

  lemma {:induction false} NoProvisionInQueue(q: seq<Queued<SiblEvent>>, net: Network)
    requires !InQueue(q)
    ensures QueueProvides(q, net)
  {
    if q != [] {
      NoProvisionInQueue(q[1..], net);
      assert forall i :: 1 <= i < |q| ==> q[i] == q[1..][i - 1];
    }
  }

  /** Before any provision every board is in order for whatever network is announced. */
  lemma UntouchedIsTouched(board: Board, q: seq<Msg>, b: nat, provider: nat, net: Network, calm: bool)
    requires b < 7 && Untouched(board, q, calm)
    ensures InboxProvides(q, net) && QueueProvides(board.internal, net)
    ensures b != provider ==> Touched(board, q, b, provider, true, net, calm)
  {
    NoProvisionInInbox(q, net);
    NoProvisionInQueue(board.internal, net);
    NoProvisionProvidesAny(board.script, net);
  }

  /** The provisioning branch: the provider holds its share and its script announces the network. */
  lemma ProviderIsTouched(board: Board, q: seq<Msg>, b: nat, calm: bool)
    requires b < 7 && Provisions(board) && Untouched(board, q, calm)
    ensures Touched(Dispatched(board, b), q, b, b, true, ProvidedNow(board), calm)
  {
    NoProvisionInInbox(q, ProvidedNow(board));
    NoProvisionInQueue(board.internal, ProvidedNow(board));
  }

  lemma ProviderAnnounces(board: Board, q: seq<Msg>, b: nat)
    requires b < 7 && Provisions(board)
    ensures var next := Dispatched(board, b);
            && next.local.role.Forwarder? && InScript(next.script)
            && (CalmBoard(board, q) ==> CalmBoard(next, q))
  {
    var next := Dispatched(board, b);
    assert next.script[1..][0] == next.script[1];
  }

  /** Once the provider announces, every board is in order for its network. */
  lemma ProvisioningReaches(n: Node, b: nat, a: nat)
    requires ProvisioningOk(n) && Enabled(n, DispatchStep(b)) && Provisions(n.boards[b]) && !n.panicked
    requires n.provisioners == [] && a < |n.boards|
    ensures var r, net := Dispatch(n, b), ProvidedNow(n.boards[b]);
            Touched(r.boards[a], r.inbox[a], a, b, true, net, n.calm)
  {
    DispatchIs(n, b);
    assert Untouched(n.boards[a], n.inbox[a], n.calm);
    if a == b { ProviderIsTouched(n.boards[b], n.inbox[b], b, n.calm); }
    else { UntouchedIsTouched(n.boards[a], n.inbox[a], a, b, ProvidedNow(n.boards[b]), n.calm); }
  }

  lemma ProvisioningReachesAll(n: Node, b: nat)
    requires AllOk(n) && ProvisioningOk(n) && Enabled(n, DispatchStep(b)) && Provisions(n.boards[b]) && !n.panicked
    ensures NetworkOk(Dispatch(n, b))
  {
    NoSecondProvisioner(n, b);
    DispatchIs(n, b);
    ProviderAnnounces(n.boards[b], n.inbox[b], b);
    forall a | 0 <= a < |n.boards|
      ensures Touched(Dispatch(n, b).boards[a], n.inbox[a], a, b, true, Dispatch(n, b).provisioners[0].1, n.calm)
    {
      ProvisioningReaches(n, b, a);
    }
  }

  lemma ProvisioningStaysInRole(n: Node, b: nat)
    requires ProvisioningOk(n) && Enabled(n, DispatchStep(b)) && Provisions(n.boards[b])
    ensures var r := Dispatch(n, b); RolesOk(r) && CursorOk(r) && CalmOk(r) && r.panicked == n.panicked
  {
    DispatchIs(n, b);
    ProviderAnnounces(n.boards[b], n.inbox[b], b);
  }

  lemma ProvisioningDispatchKeeps(n: Node, b: nat)
    requires AllOk(n) && ProvisioningOk(n) && Enabled(n, DispatchStep(b)) && Provisions(n.boards[b])
    ensures ProvisioningOk(Dispatch(n, b))
  {
    ProvisioningStaysInRole(n, b);
    if !n.panicked { ProvisioningReachesAll(n, b); }
  }

  lemma DispatchKeeps(n: Node, b: nat)
    requires AllOk(n) && ProvisioningOk(n) && Enabled(n, DispatchStep(b))
    ensures ProvisioningOk(Dispatch(n, b))
  {
    if Provisions(n.boards[b]) { ProvisioningDispatchKeeps(n, b); } else { QuietDispatchKeeps(n, b); }
  }

  // ---------- acting ----------

  /** What the head of a script sends to the other boards. */
  function Sent(n: Node, b: nat): seq<Msg>
    requires Shape(n) && b < |n.boards| && n.boards[b].script != []
  {
    match n.boards[b].script[0]
    case Edit(op) => [Copy(Apply(n.boards[b].table, op), |n.log| + 1)]
    case Refresh => [Copy(n.boards[b].table, n.boards[b].version)]
    case Tell(ev) => [Event(ev)]
    case ToPeer(_) => []
  }

  lemma ActSends(n: Node, b: nat)
    requires Shape(n) && b < |n.boards| && n.boards[b].script != []
    ensures var r := Act(n, b);
            && SameShape(n, r) && r.inbox[b] == n.inbox[b]
            && (forall a :: 0 <= a < |n.boards| && a != b ==> r.inbox[a] == n.inbox[a] + Sent(n, b))
            && (forall a :: 0 <= a < |n.boards| && a != b ==> r.boards[a] == n.boards[a])
            && (var board := n.boards[b];
                r.boards[b] == board.(script := board.script[1..], table := r.boards[b].table,
                  version := r.boards[b].version))
            && r.provisioners == n.provisioners && r.panicked == n.panicked && r.calm == n.calm
  {
    var r := Act(n, b);
    forall a | 0 <= a < |n.boards| && a != b ensures r.inbox[a] == n.inbox[a] + Sent(n, b) {}
  }

  predicate Announces(m: Msg) {
    m.Event? && m.event.Provision?
  }

  /** A board receives what the head of another board's script sends. */
  lemma SentKeepsTouched(board: Board, q: seq<Msg>, m: Msg, a: nat, provider: nat, was: bool, announcing: bool,
      net: Network, calm: bool)
    requires a < 7 && Touched(board, q, a, provider, was, net, calm)
    requires Announces(m) ==> m.event.network == net
    requires was ==> announcing || Announces(m)
    ensures Touched(board, q + [m], a, provider, announcing, net, calm)
  {
    InInboxAppend(q, m);
  }

  lemma SentKeepsUntouched(board: Board, q: seq<Msg>, m: Msg, calm: bool)
    requires Untouched(board, q, calm) && !Announces(m)
    ensures Untouched(board, q + [m], calm)
  {
    InInboxAppend(q, m);
  }

  lemma ShorterScript(script: seq<Action>, net: Network)
    requires script != []
    ensures InScript(script) <==> InScript(script[1..]) || (script[0].Tell? && script[0].event.Provision?)
    ensures ScriptProvides(script, net) ==> ScriptProvides(script[1..], net)
    ensures CalmScript(script) ==> CalmScript(script[1..])
  {}

  /** The acting board itself. */
  lemma ActorKeeps(board: Board, next: Board, q: seq<Msg>, b: nat, provider: nat, was: bool, announcing: bool,
      net: Network, calm: bool)
    requires b < 7 && board.script != [] && (b == provider || was == announcing)
    requires next == board.(script := board.script[1..], table := next.table, version := next.version)
    ensures CalmBoard(board, q) ==> CalmBoard(next, q)
    ensures Untouched(board, q, calm) ==> Untouched(next, q, calm)
    ensures Touched(board, q, b, provider, was, net, calm) ==> Touched(next, q, b, provider, announcing, net, calm)
  {
    ShorterScript(board.script, net);
    assert Undone(next) == Undone(board);
  }

  /** What every other board needs to know of the message sent. */
  lemma SentIs(n: Node, b: nat)
    requires ProvisioningOk(n) && b < |n.boards| && n.boards[b].script != [] && Sent(n, b) != []
    ensures var m := Sent(n, b)[0];
            && Sent(n, b) == [m]
            && (Announces(m) ==> InScript(n.boards[b].script))
            && (n.calm && m.Event? ==> Announces(m))
            && (!n.panicked && n.provisioners == [] ==> !Announces(m))
            && (!n.panicked && n.provisioners != [] && Announces(m)
                ==> b == n.provisioners[0].0 && m.event.network == n.provisioners[0].1)
  {
    ShorterScript(n.boards[b].script, NONE);
  }

  lemma ActKeepsCalm(n: Node, b: nat)
    requires ProvisioningOk(n) && Enabled(n, ActStep(b))
    ensures CalmOk(Act(n, b))
  {
    var r := Act(n, b);
    ActSends(n, b);
    ActorKeeps(n.boards[b], r.boards[b], n.inbox[b], b, b, true, true, NONE, n.calm);
    if Sent(n, b) != [] { SentIs(n, b); }
    if n.calm {
      forall a | 0 <= a < |n.boards| && a != b ensures CalmBoard(r.boards[a], r.inbox[a]) {
        assert CalmBoard(n.boards[a], n.inbox[a]);
      }
    }
  }

  lemma ActKeepsUntouched(n: Node, b: nat)
    requires ProvisioningOk(n) && Enabled(n, ActStep(b)) && !n.panicked && n.provisioners == []
    ensures NetworkOk(Act(n, b))
  {
    var r := Act(n, b);
    ActSends(n, b);
    ActorKeeps(n.boards[b], r.boards[b], n.inbox[b], b, b, true, true, NONE, n.calm);
    forall a | 0 <= a < |n.boards| && a != b ensures Untouched(r.boards[a], r.inbox[a], n.calm) {
      if Sent(n, b) != [] {
        SentIs(n, b);
        SentKeepsUntouched(n.boards[a], n.inbox[a], Sent(n, b)[0], n.calm);
      }
    }
  }

  lemma ActKeepsOneTouched(n: Node, b: nat, a: nat)
    requires ProvisioningOk(n) && Enabled(n, ActStep(b)) && !n.panicked && n.provisioners != [] && a < |n.boards|
    ensures var r, (p, net) := Act(n, b), n.provisioners[0];
            Touched(r.boards[a], r.inbox[a], a, p, InScript(r.boards[p].script), net, n.calm)
  {
    var r := Act(n, b);
    var (p, net) := n.provisioners[0];
    var was, announcing := InScript(n.boards[p].script), InScript(r.boards[p].script);
    ActSends(n, b);
    ShorterScript(n.boards[b].script, net);
    if a == b {
      ActorKeeps(n.boards[b], r.boards[b], n.inbox[b], b, p, was, announcing, net, n.calm);
    } else if Sent(n, b) != [] {
      SentIs(n, b);
      SentKeepsTouched(n.boards[a], n.inbox[a], Sent(n, b)[0], a, p, was, announcing, net, n.calm);
    }
  }

  lemma ActKeepsTouched(n: Node, b: nat)
    requires ProvisioningOk(n) && Enabled(n, ActStep(b)) && !n.panicked && n.provisioners != []
    ensures NetworkOk(Act(n, b))
  {
    ActSends(n, b);
    forall a | 0 <= a < |n.boards|
      ensures Touched(Act(n, b).boards[a], Act(n, b).inbox[a], a, n.provisioners[0].0,
                      InScript(Act(n, b).boards[n.provisioners[0].0].script), n.provisioners[0].1, n.calm)
    {
      ActKeepsOneTouched(n, b, a);
    }
  }

  lemma ActKeepsRoles(n: Node, b: nat)
    requires RolesOk(n) && CursorOk(n) && Enabled(n, ActStep(b))
    ensures var r := Act(n, b); RolesOk(r) && CursorOk(r) && r.panicked == n.panicked
  {
    ActSends(n, b);
  }

  lemma ActKeeps(n: Node, b: nat)
    requires ProvisioningOk(n) && Enabled(n, ActStep(b))
    ensures ProvisioningOk(Act(n, b))
  {
    ActKeepsRoles(n, b);
    ActKeepsCalm(n, b);
    if !n.panicked {
      if n.provisioners == [] { ActKeepsUntouched(n, b); } else { ActKeepsTouched(n, b); }
    }
  }

  // ---------- the other steps ----------

  lemma LeaveKeepsBoard(board: Board, left: Board, q: seq<Msg>, b: nat, provider: nat, announcing: bool, net: Network,
      calm: bool)
    requires b < 7 && board.done == Total(board)
    requires left == board.(inside := false, internal := [], external := [], done := 0)
    ensures CalmBoard(board, q) ==> CalmBoard(left, q)
    ensures Untouched(board, q, calm) ==> Untouched(left, q, calm)
    ensures Touched(board, q, b, provider, announcing, net, calm) ==>
        Touched(left, q, b, provider, announcing, net, calm)
  {
    assert Undone(board) == [] && Undone(left) == [];
  }

  lemma ExitKeeps(n: Node, b: nat)
    requires ProvisioningOk(n) && Enabled(n, ExitStep(b))
    ensures ProvisioningOk(Exit(n, b))
  {
    var (p, net) := if n.provisioners == [] then (0, NONE) else n.provisioners[0];
    var left := Leave(n, b);
    var announcing := p < |n.boards| && InScript(n.boards[p].script);
    LeaveKeepsBoard(n.boards[b], left.boards[b], n.inbox[b], b, p, announcing, net, n.calm);
    OneBoardKeeps(n, left, b);
    PassOnAddsTokens(left, b, ROUTING);
    TokensKeepProvisioning(left, PassOn(left, b, ROUTING));
  }

  lemma CalmMayEnd(n: Node, calm: bool)
    requires ProvisioningOk(n) && (calm ==> n.calm)
    ensures ProvisioningOk(n.(calm := calm))
  {}

  lemma PeerQueuedKeeps(n: Node, calmer: Node, b: nat, ev: PeerEvent)
    requires Enabled(n, PeerStep(b, ev)) && calmer == n.(calm := n.calm && (ev.Connected? || ev.Handshake?))
    requires ProvisioningOk(calmer) && |n.boards[b].external| < QUEUE_CAPACITY
    ensures ProvisioningOk(PeerArrives(n, b, ev))
  {
    OneBoardKeeps(calmer, PeerArrives(n, b, ev), b);
  }

  lemma PeerArrivesKeeps(n: Node, b: nat, ev: PeerEvent)
    requires ProvisioningOk(n) && Enabled(n, PeerStep(b, ev))
    ensures ProvisioningOk(PeerArrives(n, b, ev))
  {
    var calmer := n.(calm := n.calm && (ev.Connected? || ev.Handshake?));
    CalmMayEnd(n, calmer.calm);
    if |n.boards[b].external| >= QUEUE_CAPACITY { PanicKeeps(calmer); } else { PeerQueuedKeeps(n, calmer, b, ev); }
  }

  lemma OwedKeeps(n: Node, b: nat, id: nat)
    requires ProvisioningOk(n) && Enabled(n, OwedStep(b, id))
    ensures ProvisioningOk(RequestOwed(n, b, id))
  {
    var paid := Pay(n, b, id);
    OneBoardKeeps(n, paid, b);
    RequestAddsTokens(paid, b, ROUTING);
    TokensKeepProvisioning(paid, RequestBy(paid, b, ROUTING));
  }

  lemma StepKeepsProvisioning(n: Node, step: Step)
    requires AllOk(n) && ProvisioningOk(n) && Enabled(n, step)
    ensures ProvisioningOk(Next(n, step))
  {
    match step {
      case ReceiveStep(b) => ReceiveKeeps(n, b);
      case DispatchStep(b) => DispatchKeeps(n, b);
      case ActStep(b) => ActKeeps(n, b);
      case ExitStep(b) => ExitKeeps(n, b);
      case PeerStep(b, ev) => PeerArrivesKeeps(n, b, ev);
      case OwedStep(b, id) => OwedKeeps(n, b, id);
      case RequestStep(b, cs) =>
        RequestAddsTokens(n, b, cs);
        TokensKeepProvisioning(n, RequestBy(n, b, cs));
      case TickStep(_) =>
    }
  }

  lemma StartIsProvisioningOk(size: nat)
    requires 2 <= size <= 7
    ensures ProvisioningOk(Start(size, Home(false)))
  {
    var n := Start(size, Home(false));
    forall b | 0 <= b < size ensures Untouched(n.boards[b], n.inbox[b], true) && CalmBoard(n.boards[b], n.inbox[b]) {
      assert !InInbox([]) && !InScript([]) && !InQueue([]);
    }
  }

  // ---------- runs ----------

  lemma {:induction false} RunKeepsProvisioning(n: Node, steps: seq<Step>)
    requires AllOk(n) && ProvisioningOk(n) && IsRun(n, steps)
    ensures AllOk(After(n, steps)) && ProvisioningOk(After(n, steps))
    decreases |steps|
  {
    if steps != [] {
      StepKeepsAll(n, steps[0]);
      StepKeepsProvisioning(n, steps[0]);
      RunKeepsProvisioning(Next(n, steps[0]), steps[1..]);
    }
  }

  /** Over every run without a panic at most one board of a home node takes the provisioning branch of on_handshake, so
      every board's network is none or the one that board was given. */
  lemma AtMostOneProvisioner(size: nat, steps: seq<Step>)
    requires 2 <= size <= 7 && IsRun(Start(size, Home(false)), steps)
    requires !After(Start(size, Home(false)), steps).panicked
    ensures var n := After(Start(size, Home(false)), steps);
            && Shape(n) && |n.provisioners| <= 1
            && forall b :: 0 <= b < size && n.boards[b].local.role.Forwarder? ==>
                 var network := n.boards[b].local.role.fwd.nodeNetwork;
                 network == NONE || (n.provisioners != [] && network == n.provisioners[0].1)
  {
    StartIsAllOk(size, Home(false));
    StartIsProvisioningOk(size);
    RunKeepsProvisioning(Start(size, Home(false)), steps);
    var n := After(Start(size, Home(false)), steps);
    forall b | 0 <= b < size
      ensures NetworkIs(n.boards[b].local, if n.provisioners == [] then NONE else n.provisioners[0].1)
    {}
  }

  /** Only connects and handshakes come from peers. */
  predicate OnlyHandshakes(steps: seq<Step>) {
    forall i :: 0 <= i < |steps| ==> (steps[i].PeerStep? ==> steps[i].event.Connected? || steps[i].event.Handshake?)
  }

  lemma {:induction false} RunStaysCalm(n: Node, steps: seq<Step>)
    requires n.calm && IsRun(n, steps) && OnlyHandshakes(steps)
    ensures After(n, steps).calm
    decreases |steps|
  {
    if steps != [] { RunStaysCalm(Next(n, steps[0]), steps[1..]); }
  }

  /** Nothing is on its way, queued or being served. */
  predicate AtRest(n: Node) {
    && Shape(n) && !n.components[ROUTING].slot.tokenOut
    && forall b :: 0 <= b < |n.boards| ==> n.inbox[b] == [] && n.boards[b].internal == [] && n.boards[b].external == []
  }

  lemma RestingBoard(n: Node, b: nat)
    requires AllOk(n) && ProvisioningOk(n) && AtRest(n) && n.calm && !n.panicked && b < |n.boards|
    ensures n.provisioners == [] ==> Fresh(n.boards[b].local)
    ensures n.provisioners != [] ==> Holds(n.boards[b].local, b, n.provisioners[0].1)
  {
    if n.provisioners != [] {
      var (p, net) := n.provisioners[0];
      assert !n.boards[p].inside;
      assert Touched(n.boards[b], n.inbox[b], b, p, false, net, true);
    }
  }

  /** All boards hold their share of `net`; where the arithmetic of get_node_subnet is sound, the shares are
      disjoint. */
  ghost predicate AllHold(n: Node, net: Network) {
    && |n.boards| <= 7
    && (forall b :: 0 <= b < |n.boards| ==> Holds(n.boards[b].local, b, net))
    && (Aligned(net) && Len(net) <= MAX_PARENT ==>
          forall a, b :: 0 <= a < b < |n.boards| ==> Disjoint(n.boards[a].local.settings, n.boards[b].local.settings))
  }

  lemma HoldersAreDisjoint(n: Node, net: Network)
    requires |n.boards| <= 7 && forall b :: 0 <= b < |n.boards| ==> Holds(n.boards[b].local, b, net)
    ensures AllHold(n, net)
  {
    if Aligned(net) && Len(net) <= MAX_PARENT {
      forall a, b | 0 <= a < b < |n.boards| ensures Disjoint(n.boards[a].local.settings, n.boards[b].local.settings) {
        SubnetsOfSiblingsAreDisjoint(net, Orientation(a), Orientation(b));
      }
    }
  }

  lemma RestingNode(n: Node)
    requires AllOk(n) && ProvisioningOk(n) && AtRest(n) && n.calm && !n.panicked
    ensures (forall b :: 0 <= b < |n.boards| ==> Fresh(n.boards[b].local)) || exists net :: AllHold(n, net)
  {
    forall b | 0 <= b < |n.boards|
      ensures if n.provisioners == [] then Fresh(n.boards[b].local)
          else Holds(n.boards[b].local, b, n.provisioners[0].1)
    {
      RestingBoard(n, b);
    }
    if n.provisioners != [] { HoldersAreDisjoint(n, n.provisioners[0].1); }
  }

  /** All tables are the whole log's. */
  predicate OneTable(n: Node) {
    |n.boards| <= 7 && forall b :: 0 <= b < |n.boards| ==> n.boards[b].table == Fold(Init(|n.boards|), n.log)
  }

  lemma RestingTables(n: Node)
    requires AllOk(n) && AtRest(n)
    ensures OneTable(n)
  {
    forall b | 0 <= b < |n.boards| ensures n.boards[b].table == Fold(Init(|n.boards|), n.log) { BoardOnLog(n, b); }
  }

  lemma CalmHome(size: nat, steps: seq<Step>)
    requires 2 <= size <= 7 && IsRun(Start(size, Home(false)), steps) && OnlyHandshakes(steps)
    ensures var n := After(Start(size, Home(false)), steps);
            AllOk(n) && ProvisioningOk(n) && n.calm && |n.boards| == size
  {
    StartIsAllOk(size, Home(false));
    StartIsProvisioningOk(size);
    RunKeepsProvisioning(Start(size, Home(false)), steps);
    RunStaysCalm(Start(size, Home(false)), steps);
  }

  /** A node at rest after start, connect and handshake events only: no board is provisioned, or all boards hold their
      own share of one network, and the shares of different boards do not overlap. All tables are the same. */
  lemma QuiescentAgreement(size: nat, steps: seq<Step>)
    requires 2 <= size <= 7 && IsRun(Start(size, Home(false)), steps) && OnlyHandshakes(steps)
    requires var n := After(Start(size, Home(false)), steps); AtRest(n) && !n.panicked
    ensures var n := After(Start(size, Home(false)), steps);
            && |n.boards| == size && OneTable(n)
            && ((forall b :: 0 <= b < size ==> Fresh(n.boards[b].local)) || exists net :: AllHold(n, net))
  {
    CalmHome(size, steps);
    RestingNode(After(Start(size, Home(false)), steps));
    RestingTables(After(Start(size, Home(false)), steps));
  }
}
