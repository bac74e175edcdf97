/** Provisioning of a node whose center is the root. Its forwarders are served before the center in the first round, so
    that a handshake dispatched there can provision the node before the root does. Whichever comes first, all forwarders
    end up in that one network, and what the other announces is ignored. */
module RootProvisioning {
  import opened Bits
  import opened Fifo
  import opened Networks
  import opened NodeSystem
  import opened Provisioning
  import opened ReplicatedLog
  import opened Roles
  import opened Sync
  import opened TokenRing

  // ---------- the networks that are on their way to a board ----------

  function MsgNets(m: Msg): seq<Network> {
    if Announces(m) then [m.event.network] else []
  }

  function InboxNets(q: seq<Msg>): seq<Network> {
    if q == [] then [] else MsgNets(q[0]) + InboxNets(q[1..])
  }

  function EventNets(ev: SiblEvent): seq<Network> {
    if ev.Provision? then [ev.network] else []
  }

  function QueueNets(q: seq<Queued<SiblEvent>>): seq<Network> {
    if q == [] then [] else EventNets(q[0].event) + QueueNets(q[1..])
  }

  /** In the order in which the board will dispatch them. */
  function Coming(board: Board, q: seq<Msg>): seq<Network> {
    QueueNets(Undone(board)) + InboxNets(q)
  }

  lemma {:induction false} InboxNetsAppend(q: seq<Msg>, m: Msg)
    ensures InboxNets(q + [m]) == InboxNets(q) + MsgNets(m)
  {
    if q == [] {
      assert (q + [m])[1..] == [];
    } else {
      assert (q + [m])[1..] == q[1..] + [m];
      InboxNetsAppend(q[1..], m);
    }
  }

  lemma {:induction false} QueueNetsAppend(q: seq<Queued<SiblEvent>>, e: Queued<SiblEvent>)
    ensures QueueNets(q + [e]) == QueueNets(q) + EventNets(e.event)
  {
    if q == [] {
      assert (q + [e])[1..] == [];
    } else {
      assert (q + [e])[1..] == q[1..] + [e];
      QueueNetsAppend(q[1..], e);
    }
  }

  lemma {:induction false} NothingInInbox(q: seq<Msg>)
    requires !InInbox(q)
    ensures InboxNets(q) == []
  {
    if q != [] { NothingInInbox(q[1..]); }
  }

  // ---------- what every step keeps ----------

  /** The center's start event has not been dispatched. */
  predicate StartPending(board: Board) {
    board.internal != [] && board.internal[0].event.OnStart? && board.done == 0
  }

  /** Neither the root nor a handshake has provided a network. */
  predicate Undecided(n: Node)
    requires Shape(n)
  {
    n.provisioners == [] && StartPending(n.boards[Center(n)])
  }

  /** The board whose network prevails, and the network. */
  function Source(n: Node): nat
    requires Shape(n)
  {
    if n.provisioners == [] then Center(n) else n.provisioners[0].0
  }

  function Prevailing(n: Node, r: RootState): Network {
    if n.provisioners == [] then r.network else n.provisioners[0].1
  }

  /** A board that no network has reached or is about to reach. */
  predicate Bare(board: Board, q: seq<Msg>) {
    Coming(board, q) == [] && !InScript(board.script) && (board.local.role.Forwarder? ==> Fresh(board.local))
  }

  /** Forwarder `b` holds its share of `net`, or `net` is the first network that it will be given; `announcing` while
      the source's handler has not sent it yet. */
  predicate InOrder(board: Board, q: seq<Msg>, b: nat, source: nat, announcing: bool, net: Network)
    requires b < 7
  {
    && (b != source ==> !InScript(board.script)) && ScriptProvides(board.script, net)
    && (|| Holds(board.local, b, net)
        || (&& b != source && Fresh(board.local)
            && if Coming(board, q) == [] then announcing else Coming(board, q)[0] == net))
  }

  predicate Spread(n: Node, source: nat, net: Network)
    requires Shape(n)
  {
    && source < |n.boards| && (source == Center(n) ==> ScriptProvides(n.boards[source].script, net))
    && forall b :: 0 <= b < Center(n) ==>
         InOrder(n.boards[b], n.inbox[b], b, source, InScript(n.boards[source].script), net)
  }

  /** Nothing is on its way yet, or one network is, from a source that provided it. */
  predicate SpreadBy(n: Node, undecided: bool, source: nat, net: Network)
    requires Shape(n)
  {
    if undecided then forall b :: 0 <= b < |n.boards| ==> Bare(n.boards[b], n.inbox[b])
    else
      && |n.provisioners| <= 1 && (n.provisioners != [] ==> n.provisioners[0].0 < Center(n))
      && Spread(n, source, net)
  }

  predicate SpreadOk(n: Node, r: RootState)
    requires Shape(n)
  {
    SpreadBy(n, Undecided(n), Source(n), Prevailing(n, r))
  }

  /** A root node in a calm run: the center never changes its state. */
  predicate RootOk(n: Node, r: RootState) {
    && Shape(n) && !r.gatewayRequested && n.boards[Center(n)].local == Local(Root(r), UNSET)
    && (forall b :: 0 <= b < Center(n) ==> n.boards[b].local.role.Forwarder?)
    && n.calm && CalmOk(n) && CursorOk(n)
    && (n.panicked || SpreadOk(n, r))
  }

  /** The parts of RootOk, where the center does not change its state. */
  lemma RootAfter(n: Node, m: Node, r: RootState)
    requires RootOk(n, r) && SameShape(n, m) && m.calm && CalmOk(m) && CursorOk(m)
    requires m.boards[Center(n)].local == n.boards[Center(n)].local
    requires forall a :: 0 <= a < Center(n) ==> m.boards[a].local.role.Forwarder?
    requires m.panicked || SpreadOk(m, r)
    ensures RootOk(m, r)
  {}

  // ---------- steps that leave networks where they are ----------

  /** The board's state, script and the networks on their way to it are as before. */
  predicate LooksLike(board: Board, q: seq<Msg>, next: Board, rest: seq<Msg>, panicked: bool) {
    && next.local == board.local && next.script == board.script && (!next.inside ==> next.done == 0)
    && CalmBoard(next, rest) && (panicked || SameNets(board, q, next, rest))
  }

  predicate SameNets(board: Board, q: seq<Msg>, next: Board, rest: seq<Msg>) {
    next.local == board.local && next.script == board.script && Coming(next, rest) == Coming(board, q)
  }

  lemma LooksKeep(n: Node, m: Node, r: RootState)
    requires RootOk(n, r) && SameShape(n, m) && m.provisioners == n.provisioners && m.calm
    requires n.panicked ==> m.panicked
    requires forall b :: 0 <= b < |n.boards| ==>
               LooksLike(n.boards[b], n.inbox[b], m.boards[b], m.inbox[b], m.panicked)
    requires m.panicked || (StartPending(m.boards[Center(n)]) <==> StartPending(n.boards[Center(n)]))
    ensures RootOk(m, r)
  {
    if !m.panicked { LooksSpread(n, m, r); }
  }

  /** Who has provided, and whether anyone has, is as before. */
  lemma SameDecision(n: Node, m: Node, r: RootState)
    requires SameShape(n, m) && m.provisioners == n.provisioners
    requires StartPending(m.boards[Center(n)]) <==> StartPending(n.boards[Center(n)])
    ensures (Undecided(m) <==> Undecided(n)) && Source(m) == Source(n) && Prevailing(m, r) == Prevailing(n, r)
  {}

  lemma LooksSpread(n: Node, m: Node, r: RootState)
    requires Shape(n) && SpreadOk(n, r) && SameShape(n, m) && m.provisioners == n.provisioners
    requires forall b :: 0 <= b < |n.boards| ==> SameNets(n.boards[b], n.inbox[b], m.boards[b], m.inbox[b])
    requires StartPending(m.boards[Center(n)]) <==> StartPending(n.boards[Center(n)])
    ensures SpreadOk(m, r)
  {
    SameDecision(n, m, r);
    LooksSpreadBy(n, m, Undecided(n), Source(n), Prevailing(n, r));
  }

  lemma LooksSpreadBy(n: Node, m: Node, undecided: bool, source: nat, net: Network)
    requires Shape(n) && SameShape(n, m) && m.provisioners == n.provisioners && SpreadBy(n, undecided, source, net)
    requires forall b :: 0 <= b < |n.boards| ==> SameNets(n.boards[b], n.inbox[b], m.boards[b], m.inbox[b])
    ensures SpreadBy(m, undecided, source, net)
  {
    if undecided { LooksUndecided(n, m); } else { LooksDecided(n, m, source, net); }
  }

  lemma LooksUndecided(n: Node, m: Node)
    requires SameShape(n, m) && forall b :: 0 <= b < |n.boards| ==> Bare(n.boards[b], n.inbox[b])
    requires forall b :: 0 <= b < |n.boards| ==> SameNets(n.boards[b], n.inbox[b], m.boards[b], m.inbox[b])
    ensures forall b :: 0 <= b < |m.boards| ==> Bare(m.boards[b], m.inbox[b])
  {
    forall b | 0 <= b < |n.boards| ensures Bare(m.boards[b], m.inbox[b]) {
      LooksBare(n.boards[b], n.inbox[b], m.boards[b], m.inbox[b]);
    }
  }

  lemma LooksDecided(n: Node, m: Node, source: nat, net: Network)
    requires Shape(n) && SameShape(n, m) && Spread(n, source, net)
    requires forall b :: 0 <= b < |n.boards| ==> SameNets(n.boards[b], n.inbox[b], m.boards[b], m.inbox[b])
    ensures Spread(m, source, net)
  {
    assert m.boards[source].script == n.boards[source].script;
    forall b | 0 <= b < Center(n)
      ensures InOrder(m.boards[b], m.inbox[b], b, source, InScript(m.boards[source].script), net)
    {
      LooksInOrder(n.boards[b], n.inbox[b], m.boards[b], m.inbox[b], b, source, InScript(n.boards[source].script), net);
    }
  }

  lemma LooksBare(board: Board, q: seq<Msg>, next: Board, rest: seq<Msg>)
    requires SameNets(board, q, next, rest) && Bare(board, q)
    ensures Bare(next, rest)
  {}

  lemma LooksInOrder(board: Board, q: seq<Msg>, next: Board, rest: seq<Msg>, b: nat, source: nat, announcing: bool,
      net: Network)
    requires b < 7 && SameNets(board, q, next, rest) && InOrder(board, q, b, source, announcing, net)
    ensures InOrder(next, rest, b, source, announcing, net)
  {}

  /** One board and its inbox change so. */
  lemma OneLooksKeep(n: Node, m: Node, b: nat, r: RootState)
    requires RootOk(n, r) && SameShape(n, m) && m.provisioners == n.provisioners && m.calm && b < |n.boards|
    requires n.panicked ==> m.panicked
    requires forall a :: 0 <= a < |n.boards| && a != b ==> m.boards[a] == n.boards[a] && m.inbox[a] == n.inbox[a]
    requires LooksLike(n.boards[b], n.inbox[b], m.boards[b], m.inbox[b], m.panicked)
    requires m.panicked || (StartPending(m.boards[b]) <==> StartPending(n.boards[b]))
    ensures RootOk(m, r)
  {
    LooksKeep(n, m, r);
  }

  lemma TokensKeep(n: Node, m: Node, r: RootState)
    requires RootOk(n, r) && OnlyTokensAdded(n, m)
    ensures RootOk(m, r)
  {
    forall b | 0 <= b < |n.boards| ensures LooksLike(n.boards[b], n.inbox[b], m.boards[b], m.inbox[b], m.panicked) {
      if m.inbox[b] != n.inbox[b] {
        var t :| m.inbox[b] == n.inbox[b] + [Token(t)];
        InboxNetsAppend(n.inbox[b], Token(t));
        TokenKeepsBoard(n.boards[b], n.inbox[b], t, b, 0, false, NONE, true);
      }
    }
    LooksKeep(n, m, r);
  }

  lemma RequestKeepsRoot(n: Node, b: nat, cs: ComponentId, r: RootState)
    requires RootOk(n, r) && b < |n.boards|
    ensures RootOk(RequestBy(n, b, cs), r)
  {
    RequestAddsTokens(n, b, cs);
    TokensKeep(n, RequestBy(n, b, cs), r);
  }

  // ---------- receiving ----------

  /** A message that is no event is popped, and perhaps the table changes or the board enters. */
  lemma PopKeepsRoot(n: Node, b: nat, m: Node, r: RootState)
    requires RootOk(n, r) && Enabled(n, ReceiveStep(b)) && !n.inbox[b][0].Event? && SameShape(n, m)
    requires m.inbox == Pop(n.inbox, b) && m.provisioners == n.provisioners && m.panicked == n.panicked && m.calm
    requires var next := m.boards[b];
             m.boards == n.boards[b := n.boards[b].(table := next.table, version := next.version,
                                                    inside := next.inside)]
    ensures RootOk(m, r)
  {
    PoppedLooks(n.boards[b], n.inbox[b], m.boards[b]);
    OneLooksKeep(n, m, b, r);
  }

  lemma PoppedLooks(board: Board, q: seq<Msg>, next: Board)
    requires q != [] && !q[0].Event? && board.done == 0 && CalmBoard(board, q)
    requires next == board.(table := next.table, version := next.version, inside := next.inside)
    ensures LooksLike(board, q, next, q[1..], false)
  {
    assert Undone(next) == Undone(board);
  }

  lemma GrantKeepsRoot(n: Node, b: nat, cs: ComponentId, r: RootState)
    requires RootOk(n, r) && Enabled(n, ReceiveStep(b)) && n.inbox[b][0] == Mine(cs, b)
    ensures RootOk(Receive(n, b), r)
  {
    var taken := Take(n, b, cs);
    if cs == ROUTING {
      EnterIs(n, b);
      PopKeepsRoot(n, b, Receive(n, b), r);
    } else {
      PopKeepsRoot(n, b, taken, r);
      PassOnAddsTokens(taken, b, cs);
      TokensKeep(taken, PassOn(taken, b, cs), r);
    }
  }

  lemma EnterIs(n: Node, b: nat)
    requires Enabled(n, ReceiveStep(b)) && n.inbox[b][0] == Mine(ROUTING, b) && n.boards[b].done == 0
    ensures Receive(n, b).boards == n.boards[b := n.boards[b].(inside := true)]
    ensures Receive(n, b).inbox == Pop(n.inbox, b)
  {}

  /** An event moves from the inbox to the internal queue. */
  lemma QueuedLooks(board: Board, q: seq<Msg>)
    requires q != [] && q[0].Event? && board.done == 0 && CalmBoard(board, q)
    ensures var next := Queueing(board, q[0].event);
            LooksLike(board, q, next, q[1..], false) && (StartPending(next) <==> StartPending(board))
  {
    var e, next := Queued(board.nextId, q[0].event), Queueing(board, q[0].event);
    QueueNetsAppend(board.internal, e);
    assert Undone(board) == board.internal && Undone(next) == board.internal + [e];
    assert QueueNets(board.internal) + EventNets(e.event) + InboxNets(q[1..])
           == QueueNets(board.internal) + (EventNets(e.event) + InboxNets(q[1..]));
  }

  lemma QueueKeepsRoot(n: Node, b: nat, r: RootState)
    requires RootOk(n, r) && Enabled(n, ReceiveStep(b)) && n.inbox[b][0].Event?
    ensures RootOk(QueueEvent(n.(inbox := Pop(n.inbox, b)), b, n.inbox[b][0].event), r)
  {
    QueuesOne(n, b);
    QueuedLooks(n.boards[b], n.inbox[b]);
    OneLooksKeep(n, QueueEvent(n.(inbox := Pop(n.inbox, b)), b, n.inbox[b][0].event), b, r);
  }

  lemma EventKeepsRoot(n: Node, b: nat, r: RootState)
    requires RootOk(n, r) && Enabled(n, ReceiveStep(b)) && n.inbox[b][0].Event?
    ensures RootOk(Receive(n, b), r)
  {
    if |n.boards[b].internal| < QUEUE_CAPACITY {
      QueueKeepsRoot(n, b, r);
      RequestKeepsRoot(QueueEvent(n.(inbox := Pop(n.inbox, b)), b, n.inbox[b][0].event), b, ROUTING, r);
    } else {
      DropKeepsRoot(n, b, r);
    }
  }

  lemma DropKeepsRoot(n: Node, b: nat, r: RootState)
    requires RootOk(n, r) && Enabled(n, ReceiveStep(b)) && n.inbox[b][0].Event?
    ensures RootOk(n.(inbox := Pop(n.inbox, b), panicked := true), r)
  {
    OneLooksKeep(n, n.(inbox := Pop(n.inbox, b), panicked := true), b, r);
  }

  lemma CopyKeepsRoot(n: Node, b: nat, r: RootState)
    requires RootOk(n, r) && Enabled(n, ReceiveStep(b)) && n.inbox[b][0].Copy?
    ensures RootOk(Receive(n, b), r)
  {
    PopKeepsRoot(n, b, Receive(n, b), r);
  }

  lemma OtherTokenKeepsRoot(n: Node, b: nat, r: RootState)
    requires RootOk(n, r) && Enabled(n, ReceiveStep(b)) && n.inbox[b][0].Token?
    requires n.inbox[b][0] != Mine(n.inbox[b][0].sync.cs, b)
    ensures RootOk(Receive(n, b), r)
  {
    var sync, popped := n.inbox[b][0].sync, n.(inbox := Pop(n.inbox, b));
    PopKeepsRoot(n, b, popped, r);
    if sync.Request? && b == Center(n) { RequestKeepsRoot(popped, b, sync.cs, r); }
  }

  lemma ReceiveKeepsRoot(n: Node, b: nat, r: RootState)
    requires RootOk(n, r) && Enabled(n, ReceiveStep(b))
    ensures RootOk(Receive(n, b), r)
  {
    match n.inbox[b][0] {
      case Event(_) => EventKeepsRoot(n, b, r);
      case Copy(_, _) => CopyKeepsRoot(n, b, r);
      case Token(sync) =>
        if Token(sync) == Mine(sync.cs, b) { GrantKeepsRoot(n, b, sync.cs, r); } else { OtherTokenKeepsRoot(n, b, r); }
    }
  }

  // ---------- dispatching ----------

  /** The next event, if the board is to dispatch a sibling event, is the first that it has not dispatched. */
  lemma UndoneNets(board: Board)
    requires board.done < |board.internal|
    ensures var next := board.(done := board.done + 1);
            QueueNets(Undone(board)) == EventNets(board.internal[board.done].event) + QueueNets(Undone(next))
  {
    assert Undone(board)[1..] == Undone(board.(done := board.done + 1));
  }

  lemma HoldersIgnoreProvisions(l: Local, b: nat, ev: SiblEvent, net: Network)
    requires b < 7 && l.role.Forwarder? && Holds(l, b, net) && (ev.OnStart? || ev.Provision?)
    ensures HandleSibling(l, Orientation(b), ev) == Outcome(l, [])
  {}

  lemma FreshTakeProvisions(l: Local, b: nat, ev: SiblEvent)
    requires b < 7 && l.role.Forwarder? && Fresh(l) && (ev.OnStart? || ev.Provision?)
    ensures var o := HandleSibling(l, Orientation(b), ev);
            && o.actions == [] && o.local.role.Forwarder?
            && if ev.Provision? then Holds(o.local, b, ev.network) else o.local == l
  {}

  /** A forwarder takes the first network that it is given, and no other. */
  lemma SiblingDispatchInOrder(board: Board, q: seq<Msg>, b: nat, source: nat, net: Network)
    requires b < 7 && board.local.role.Forwarder? && board.done < |board.internal| && CalmBoard(board, q)
    requires InOrder(board, q, b, source, false, net)
    ensures InOrder(Dispatched(board, b), q, b, source, false, net)
  {
    var ev, next := board.internal[board.done].event, Dispatched(board, b);
    UndoneNets(board);
    assert QueueNets(Undone(next)) == QueueNets(Undone(board.(done := board.done + 1)));
    assert Coming(board, q) == EventNets(ev) + Coming(next, q);
    if Holds(board.local, b, net) { HoldersIgnoreProvisions(board.local, b, ev, net); }
    else { FreshTakeProvisions(board.local, b, ev); }
  }

  lemma SiblingDispatchBare(board: Board, q: seq<Msg>, b: nat)
    requires b < 7 && board.local.role.Forwarder? && board.done < |board.internal| && CalmBoard(board, q)
    requires Bare(board, q)
    ensures Bare(Dispatched(board, b), q)
  {
    var ev, next := board.internal[board.done].event, Dispatched(board, b);
    UndoneNets(board);
    assert QueueNets(Undone(next)) == QueueNets(Undone(board.(done := board.done + 1)));
    FreshTakeProvisions(board.local, b, ev);
  }

  /** A connect or a handshake that does not provision. */
  lemma PeerDispatchStays(board: Board, q: seq<Msg>, b: nat)
    requires b < 7 && board.local.role.Forwarder? && |board.internal| <= board.done < Total(board)
    requires CalmBoard(board, q) && !Provisions(board)
    ensures var next := Dispatched(board, b);
            && !InScript(next.script) && CalmScript(next.script) && next.local.role.Forwarder?
            && (Fresh(board.local) ==> Fresh(next.local))
            && Coming(next, q) == Coming(board, q)
            && forall net :: Holds(board.local, b, net) ==> Holds(next.local, b, net)
  {
    var next, e := Dispatched(board, b), board.external[board.done - |board.internal|].event;
    assert Undone(board) == [] && Undone(next) == [];
    forall net ensures Holds(board.local, b, net) ==> Holds(next.local, b, net) { PeerEffect(board.local, b, e, net); }
    PeerEffect(board.local, b, e, NONE);
  }

  /** What dispatching an event that does not provision does to a forwarder. */
  lemma ForwarderDispatch(board: Board, q: seq<Msg>, b: nat)
    requires b < 7 && board.local.role.Forwarder? && board.script == [] && board.done < Total(board)
    requires CalmBoard(board, q) && !Provisions(board)
    ensures var next := Dispatched(board, b);
            && next.local.role.Forwarder? && CalmBoard(next, q) && !InScript(next.script)
            && (Bare(board, q) ==> Bare(next, q))
  {
    var next := Dispatched(board, b);
    if board.done < |board.internal| {
      SiblingEffect(board.local, b, board.internal[board.done].event,
        if board.internal[board.done].event.Provision? then board.internal[board.done].event.network else NONE);
      if Bare(board, q) { SiblingDispatchBare(board, q, b); }
    } else {
      PeerDispatchStays(board, q, b);
    }
  }

  lemma ForwarderDispatchInOrder(board: Board, q: seq<Msg>, b: nat, source: nat, net: Network)
    requires b < 7 && board.local.role.Forwarder? && board.script == [] && board.done < Total(board)
    requires CalmBoard(board, q) && !Provisions(board) && InOrder(board, q, b, source, false, net)
    ensures InOrder(Dispatched(board, b), q, b, source, false, net)
  {
    if board.done < |board.internal| {
      SiblingDispatchInOrder(board, q, b, source, net);
    } else {
      PeerDispatchStays(board, q, b);
      NoProvisionProvidesAny(Dispatched(board, b).script, net);
    }
  }

  /** One forwarder changes. */
  lemma OneForwarderSpread(n: Node, m: Node, b: nat, undecided: bool, source: nat, net: Network)
    requires Shape(n) && SameShape(n, m) && b < Center(n) && m.inbox == n.inbox && m.provisioners == n.provisioners
    requires m.boards == n.boards[b := m.boards[b]] && SpreadBy(n, undecided, source, net)
    requires InScript(m.boards[b].script) <==> InScript(n.boards[b].script)
    requires if undecided then Bare(m.boards[b], n.inbox[b])
             else InOrder(m.boards[b], n.inbox[b], b, source, InScript(n.boards[source].script), net)
    ensures SpreadBy(m, undecided, source, net)
  {
    if !undecided { SpreadStays(n, m, b, source, net); }
  }

  lemma OneForwarderStays(n: Node, m: Node, b: nat)
    requires Shape(n) && SameShape(n, m) && b < Center(n) && m.inbox == n.inbox && m.calm
    requires m.boards == n.boards[b := m.boards[b]] && CalmOk(n) && n.calm && CursorOk(n)
    requires CalmBoard(m.boards[b], n.inbox[b]) && (!m.boards[b].inside ==> m.boards[b].done == 0)
    ensures CalmOk(m) && CursorOk(m)
  {}

  lemma SpreadStays(n: Node, m: Node, b: nat, source: nat, net: Network)
    requires Shape(n) && SameShape(n, m) && b < Center(n) && m.inbox == n.inbox
        && m.boards == n.boards[b := m.boards[b]]
    requires Spread(n, source, net) && (InScript(m.boards[b].script) <==> InScript(n.boards[b].script))
    requires InOrder(m.boards[b], n.inbox[b], b, source, InScript(n.boards[source].script), net)
    ensures Spread(m, source, net)
  {
    forall a | 0 <= a < Center(n)
      ensures InOrder(m.boards[a], m.inbox[a], a, source, InScript(m.boards[source].script), net)
    {
      assert InOrder(n.boards[a], n.inbox[a], a, source, InScript(n.boards[source].script), net);
    }
  }

  /** While a board is inside, no other announces, and neither does it before its handler. */
  lemma NobodyAnnounces(n: Node, b: nat, source: nat)
    requires AllOk(n) && b < |n.boards| && source < |n.boards| && n.boards[b].inside && n.boards[b].script == []
    ensures !InScript(n.boards[source].script)
  {
    InsideIsUpToDate(n, b);
  }

  lemma QuietDispatchSpread(n: Node, b: nat, undecided: bool, source: nat, net: Network)
    requires AllOk(n) && Enabled(n, DispatchStep(b)) && b < Center(n) && !Provisions(n.boards[b])
    requires n.boards[b].local.role.Forwarder? && CalmBoard(n.boards[b], n.inbox[b])
    requires SpreadBy(n, undecided, source, net)
    ensures SpreadBy(Dispatch(n, b), undecided, source, net)
  {
    var board, q := n.boards[b], n.inbox[b];
    DispatchIs(n, b);
    ForwarderDispatch(board, q, b);
    if !undecided {
      NobodyAnnounces(n, b, source);
      ForwarderDispatchInOrder(board, q, b, source, net);
    }
    OneForwarderSpread(n, Dispatch(n, b), b, undecided, source, net);
  }

  lemma QuietDispatchKeepsRoot(n: Node, b: nat, r: RootState)
    requires AllOk(n) && RootOk(n, r) && Enabled(n, DispatchStep(b)) && b < Center(n) && !Provisions(n.boards[b])
    ensures RootOk(Dispatch(n, b), r)
  {
    QuietDispatchStays(n, b, r);
    if !n.panicked { QuietDispatchSpread(n, b, Undecided(n), Source(n), Prevailing(n, r)); }
    RootAfter(n, Dispatch(n, b), r);
  }

  lemma QuietDispatchStays(n: Node, b: nat, r: RootState)
    requires RootOk(n, r) && Enabled(n, DispatchStep(b)) && b < Center(n) && !Provisions(n.boards[b])
    ensures var m := Dispatch(n, b);
            && m.boards[Center(n)] == n.boards[Center(n)] && CalmOk(m) && CursorOk(m) && m.calm
            && m.panicked == n.panicked && (forall a :: 0 <= a < Center(n) ==> m.boards[a].local.role.Forwarder?)
            && (Undecided(m) <==> Undecided(n)) && Source(m) == Source(n) && Prevailing(m, r) == Prevailing(n, r)
  {
    DispatchIs(n, b);
    ForwarderDispatch(n.boards[b], n.inbox[b], b);
    OneForwarderStays(n, Dispatch(n, b), b);
    SameDecision(n, Dispatch(n, b), r);
  }

  /** Once a network has been provided, no forwarder inside that has dispatched its sibling events lacks one. */
  lemma NoneLacks(n: Node, b: nat, r: RootState)
    requires AllOk(n) && RootOk(n, r) && Enabled(n, DispatchStep(b)) && !n.panicked && !Undecided(n) && b < Center(n)
    requires |n.boards[b].internal| <= n.boards[b].done
    ensures !LacksNetwork(n.boards[b].local)
  {
    InsideIsUpToDate(n, b);
    NothingInInbox(n.inbox[b]);
    NobodyAnnounces(n, b, Source(n));
    assert Undone(n.boards[b]) == [];
    assert InOrder(n.boards[b], n.inbox[b], b, Source(n), false, Prevailing(n, r));
  }

  lemma OnlyUndecidedProvisions(n: Node, b: nat, r: RootState)
    requires AllOk(n) && RootOk(n, r) && Enabled(n, DispatchStep(b)) && !n.panicked && b < Center(n)
    requires Provisions(n.boards[b])
    ensures Undecided(n)
  {
    if !Undecided(n) { NoneLacks(n, b, r); }
  }

  lemma ProviderInOrder(board: Board, q: seq<Msg>, b: nat)
    requires b < 7 && Provisions(board) && Fresh(board.local)
    ensures InOrder(Dispatched(board, b), q, b, b, true, ProvidedNow(board))
  {}

  lemma ProvisionSpreads(n: Node, b: nat, r: RootState)
    requires RootOk(n, r) && Enabled(n, DispatchStep(b)) && b < Center(n) && Provisions(n.boards[b])
    requires !n.panicked && Undecided(n)
    ensures SpreadOk(Dispatch(n, b), r)
  {
    var m, net := Dispatch(n, b), ProvidedNow(n.boards[b]);
    DispatchIs(n, b);
    ProviderAnnounces(n.boards[b], n.inbox[b], b);
    forall a | 0 <= a < Center(n) ensures InOrder(m.boards[a], m.inbox[a], a, b, true, net) {
      assert Bare(n.boards[a], n.inbox[a]);
      if a == b { ProviderInOrder(n.boards[b], n.inbox[b], b); }
      else { NoProvisionProvidesAny(n.boards[a].script, net); }
    }
    assert Spread(m, b, net);
  }

  lemma ProvisionKeepsCalm(n: Node, b: nat, r: RootState)
    requires RootOk(n, r) && Enabled(n, DispatchStep(b)) && b < Center(n) && Provisions(n.boards[b])
    ensures var m := Dispatch(n, b);
            && m.boards[Center(n)] == n.boards[Center(n)] && CalmOk(m) && CursorOk(m) && m.calm
            && (m.panicked <==> n.panicked)
            && forall a :: 0 <= a < Center(n) ==> m.boards[a].local.role.Forwarder?
  {
    DispatchIs(n, b);
    ProviderAnnounces(n.boards[b], n.inbox[b], b);
  }

  lemma ProvisionKeepsRoot(n: Node, b: nat, r: RootState)
    requires AllOk(n) && RootOk(n, r) && Enabled(n, DispatchStep(b)) && b < Center(n) && Provisions(n.boards[b])
    ensures RootOk(Dispatch(n, b), r)
  {
    ProvisionKeepsCalm(n, b, r);
    if !n.panicked {
      OnlyUndecidedProvisions(n, b, r);
      ProvisionSpreads(n, b, r);
    }
    RootAfter(n, Dispatch(n, b), r);
  }

  /** The root's handlers in a calm run: only the start event does anything. */
  lemma RootOutcome(board: Board, q: seq<Msg>, b: nat, r: RootState)
    requires b < 7 && board.local == Local(Root(r), UNSET) && board.done < Total(board) && CalmBoard(board, q)
    ensures var next := Dispatched(board, b);
            && next.local == board.local && CalmBoard(next, q) && ScriptProvides(next.script, r.network)
            && (StartPending(board) ==> InScript(next.script)) && !StartPending(next)
            && !Provisions(board)
  {
    var next := Dispatched(board, b);
    if next.script != [] {
      assert next.script == RootStart(r, Orientation(b));
      assert next.script[1..][0] == next.script[1];
    }
  }

  lemma RootAnnounces(n: Node, m: Node, r: RootState)
    requires AllOk(n) && RootOk(n, r) && Enabled(n, DispatchStep(Center(n))) && !n.panicked
    requires SameShape(n, m) && m.boards == n.boards[Center(n) := m.boards[Center(n)]] && m.inbox == n.inbox
    requires m.provisioners == n.provisioners && !StartPending(m.boards[Center(n)])
    requires ScriptProvides(m.boards[Center(n)].script, r.network)
    requires StartPending(n.boards[Center(n)]) ==> InScript(m.boards[Center(n)].script)
    ensures SpreadOk(m, r)
  {
    var p, net := Source(m), Prevailing(m, r);
    if !Undecided(n) { NobodyAnnounces(n, Center(n), p); }
    forall b | 0 <= b < Center(n) ensures InOrder(m.boards[b], m.inbox[b], b, p, InScript(m.boards[p].script), net) {
      if Undecided(n) {
        assert Bare(n.boards[b], n.inbox[b]);
        NoProvisionProvidesAny(n.boards[b].script, net);
      } else {
        assert InOrder(n.boards[b], n.inbox[b], b, p, InScript(n.boards[p].script), net);
      }
    }
  }

  lemma CenterDispatchKeepsRoot(n: Node, r: RootState)
    requires AllOk(n) && RootOk(n, r) && Enabled(n, DispatchStep(Center(n)))
    ensures RootOk(Dispatch(n, Center(n)), r)
  {
    var c := Center(n);
    RootOutcome(n.boards[c], n.inbox[c], c, r);
    DispatchIs(n, c);
    CenterStaysCalm(n, Dispatch(n, c));
    if !n.panicked { RootAnnounces(n, Dispatch(n, c), r); }
    RootAfter(n, Dispatch(n, c), r);
  }

  lemma CenterStaysCalm(n: Node, m: Node)
    requires Shape(n) && SameShape(n, m) && m.inbox == n.inbox && m.boards == n.boards[Center(n) := m.boards[Center(n)]]
    requires n.calm && m.calm && CalmOk(n) && CursorOk(n) && m.boards[Center(n)].inside
    requires CalmBoard(m.boards[Center(n)], n.inbox[Center(n)])
    ensures CalmOk(m) && CursorOk(m)
  {}

  // ---------- acting ----------

  /** A forwarder is sent a message while its source may announce. */
  lemma SentInOrder(board: Board, q: seq<Msg>, m: Msg, b: nat, source: nat, was: bool, announcing: bool, net: Network)
    requires b < 7 && InOrder(board, q, b, source, was, net)
    requires MsgNets(m) == [net] || !was || (MsgNets(m) == [] && announcing)
    ensures InOrder(board, q + [m], b, source, announcing, net)
  {
    InboxNetsAppend(q, m);
    assert Coming(board, q + [m]) == Coming(board, q) + MsgNets(m);
  }

  lemma ActorInOrder(board: Board, next: Board, q: seq<Msg>, b: nat, source: nat, was: bool, announcing: bool,
      net: Network)
    requires b < 7 && board.script != [] && InOrder(board, q, b, source, was, net)
        && (was ==> b == source || announcing)
    requires next == board.(script := board.script[1..], table := next.table, version := next.version)
    ensures InOrder(next, q, b, source, announcing, net)
  {
    ShorterScript(board.script, net);
    assert Undone(next) == Undone(board);
  }

  lemma ActorBare(board: Board, next: Board, q: seq<Msg>)
    requires board.script != [] && Bare(board, q)
    requires next == board.(script := board.script[1..], table := next.table, version := next.version)
    ensures Bare(next, q)
  {
    ShorterScript(board.script, NONE);
    assert Undone(next) == Undone(board);
  }

  /** What is sent while the source announces is its network, or nothing that provides one. */
  lemma SentNets(n: Node, b: nat, r: RootState)
    requires AllOk(n) && RootOk(n, r) && Enabled(n, ActStep(b)) && !n.panicked && !Undecided(n) && Sent(n, b) != []
    ensures var m, p, net := Sent(n, b)[0], Source(n), Prevailing(n, r);
            && Sent(n, b) == [m]
            && (InScript(n.boards[p].script) ==> b == p && (MsgNets(m) == [net] || MsgNets(m) == []))
            && (MsgNets(m) == [] && InScript(n.boards[p].script) ==> InScript(Act(n, b).boards[p].script))
  {
    var p, net := Source(n), Prevailing(n, r);
    ActSends(n, b);
    ShorterScript(n.boards[b].script, net);
    if p != b { InsideIsUpToDate(n, b); }
    else if p < Center(n) { assert InOrder(n.boards[p], n.inbox[p], p, p, InScript(n.boards[p].script), net); }
  }

  lemma ActKeepsInOrder(n: Node, b: nat, a: nat, r: RootState)
    requires AllOk(n) && RootOk(n, r) && Enabled(n, ActStep(b)) && !n.panicked && !Undecided(n) && a < Center(n)
    ensures var m, p := Act(n, b), Source(n);
            InOrder(m.boards[a], m.inbox[a], a, p, InScript(m.boards[p].script), Prevailing(n, r))
  {
    var m, p, net := Act(n, b), Source(n), Prevailing(n, r);
    var was, announcing := InScript(n.boards[p].script), InScript(m.boards[p].script);
    ActSends(n, b);
    assert InOrder(n.boards[a], n.inbox[a], a, p, was, net);
    if p != b { InsideIsUpToDate(n, b); }
    if a == b {
      ActorInOrder(n.boards[b], m.boards[b], n.inbox[b], b, p, was, announcing, net);
    } else if Sent(n, b) != [] {
      SentNets(n, b, r);
      SentInOrder(n.boards[a], n.inbox[a], Sent(n, b)[0], a, p, was, announcing, net);
    } else {
      SilentActKeeps(n, b, a, r);
    }
  }

  lemma SilentActKeeps(n: Node, b: nat, a: nat, r: RootState)
    requires RootOk(n, r) && Enabled(n, ActStep(b)) && !n.panicked && !Undecided(n) && a < Center(n) && a != b
    requires Sent(n, b) == []
    ensures var m, p := Act(n, b), Source(n);
            InOrder(m.boards[a], m.inbox[a], a, p, InScript(m.boards[p].script), Prevailing(n, r))
  {
    ActSends(n, b);
    ShorterScript(n.boards[b].script, NONE);
    assert InOrder(n.boards[a], n.inbox[a], a, Source(n), InScript(n.boards[Source(n)].script), Prevailing(n, r));
  }

  lemma ActKeepsSpread(n: Node, b: nat, r: RootState)
    requires AllOk(n) && RootOk(n, r) && Enabled(n, ActStep(b)) && !n.panicked && !Undecided(n)
    ensures SpreadOk(Act(n, b), r)
  {
    var m, p, net := Act(n, b), Source(n), Prevailing(n, r);
    ActSends(n, b);
    forall a | 0 <= a < Center(n) ensures InOrder(m.boards[a], m.inbox[a], a, p, InScript(m.boards[p].script), net) {
      ActKeepsInOrder(n, b, a, r);
    }
    ShorterScript(n.boards[b].script, net);
    SameDecision(n, m, r);
  }

  lemma ActKeepsUndecided(n: Node, b: nat)
    requires Enabled(n, ActStep(b)) && Undecided(n)
    ensures Undecided(Act(n, b))
  {
    ActSends(n, b);
  }

  lemma ActKeepsBare(n: Node, b: nat, r: RootState)
    requires RootOk(n, r) && Enabled(n, ActStep(b)) && !n.panicked && Undecided(n)
    ensures SpreadOk(Act(n, b), r)
  {
    ActKeepsUndecided(n, b);
    forall a | 0 <= a < |n.boards| ensures Bare(Act(n, b).boards[a], Act(n, b).inbox[a]) {
      assert Bare(n.boards[a], n.inbox[a]) && Bare(n.boards[b], n.inbox[b]);
      ActKeepsBoardBare(n, b, a);
    }
  }

  lemma ActKeepsBoardBare(n: Node, b: nat, a: nat)
    requires Enabled(n, ActStep(b)) && a < |n.boards|
    requires Bare(n.boards[a], n.inbox[a]) && Bare(n.boards[b], n.inbox[b])
    ensures Bare(Act(n, b).boards[a], Act(n, b).inbox[a])
  {
    ActSends(n, b);
    if a == b { ActorBare(n.boards[b], Act(n, b).boards[b], n.inbox[b]); }
    else if Sent(n, b) == [] { assert n.inbox[a] + [] == n.inbox[a]; }
    else {
      SilentSent(n, b);
      SentKeepsBare(n.boards[a], n.inbox[a], Sent(n, b)[0]);
    }
  }

  lemma SilentSent(n: Node, b: nat)
    requires Enabled(n, ActStep(b)) && !InScript(n.boards[b].script) && Sent(n, b) != []
    ensures Sent(n, b) == [Sent(n, b)[0]] && !Announces(Sent(n, b)[0])
  {}

  lemma SentKeepsBare(board: Board, q: seq<Msg>, m: Msg)
    requires Bare(board, q) && !Announces(m)
    ensures Bare(board, q + [m])
  {
    InboxNetsAppend(q, m);
  }

  lemma ActKeepsCalmBoard(n: Node, b: nat, a: nat)
    requires Enabled(n, ActStep(b)) && a < |n.boards|
    requires CalmBoard(n.boards[b], n.inbox[b]) && CalmBoard(n.boards[a], n.inbox[a])
    ensures CalmBoard(Act(n, b).boards[a], Act(n, b).inbox[a])
  {
    ActSends(n, b);
    ShorterScript(n.boards[b].script, NONE);
  }

  lemma ActKeepsCalmRoot(n: Node, b: nat, r: RootState)
    requires RootOk(n, r) && Enabled(n, ActStep(b))
    ensures var m := Act(n, b);
            && m.boards[Center(n)].local == n.boards[Center(n)].local
            && (forall a :: 0 <= a < Center(n) ==> m.boards[a].local.role.Forwarder?)
            && CalmOk(m) && CursorOk(m) && m.calm && m.panicked == n.panicked
  {
    ActSends(n, b);
    forall a | 0 <= a < |n.boards| ensures CalmBoard(Act(n, b).boards[a], Act(n, b).inbox[a]) {
      ActKeepsCalmBoard(n, b, a);
    }
  }

  lemma ActKeepsRoot(n: Node, b: nat, r: RootState)
    requires AllOk(n) && RootOk(n, r) && Enabled(n, ActStep(b))
    ensures RootOk(Act(n, b), r)
  {
    ActKeepsCalmRoot(n, b, r);
    if !n.panicked {
      if Undecided(n) { ActKeepsBare(n, b, r); } else { ActKeepsSpread(n, b, r); }
    }
    RootAfter(n, Act(n, b), r);
  }

  // ---------- the other steps ----------

  lemma LeftLooks(board: Board, q: seq<Msg>)
    requires board.done == Total(board) && CalmBoard(board, q)
    ensures var left := board.(inside := false, internal := [], external := [], done := 0);
            LooksLike(board, q, left, q, false) && !StartPending(left) && !StartPending(board)
  {
    assert Undone(board) == [];
  }

  lemma LeaveKeepsRoot(n: Node, b: nat, r: RootState)
    requires RootOk(n, r) && Enabled(n, ExitStep(b))
    ensures RootOk(Leave(n, b), r)
  {
    LeftLooks(n.boards[b], n.inbox[b]);
    OneLooksKeep(n, Leave(n, b), b, r);
  }

  lemma ExitKeepsRoot(n: Node, b: nat, r: RootState)
    requires RootOk(n, r) && Enabled(n, ExitStep(b))
    ensures RootOk(Exit(n, b), r)
  {
    LeaveKeepsRoot(n, b, r);
    PassOnAddsTokens(Leave(n, b), b, ROUTING);
    TokensKeep(Leave(n, b), Exit(n, b), r);
  }

  lemma PeerKeepsRoot(n: Node, b: nat, ev: PeerEvent, r: RootState)
    requires RootOk(n, r) && Enabled(n, PeerStep(b, ev)) && (ev.Connected? || ev.Handshake?)
    ensures RootOk(PeerArrives(n, b, ev), r)
  {
    var m := PeerArrives(n, b, ev);
    assert Undone(m.boards[b]) == Undone(n.boards[b]);
    assert CalmBoard(n.boards[b], n.inbox[b]);
    OneLooksKeep(n, m, b, r);
  }

  lemma OwedKeepsRoot(n: Node, b: nat, id: nat, r: RootState)
    requires RootOk(n, r) && Enabled(n, OwedStep(b, id))
    ensures RootOk(RequestOwed(n, b, id), r)
  {
    var paid := Pay(n, b, id);
    assert Undone(paid.boards[b]) == Undone(n.boards[b]);
    assert CalmBoard(n.boards[b], n.inbox[b]);
    OneLooksKeep(n, paid, b, r);
    RequestKeepsRoot(paid, b, ROUTING, r);
  }

  /** No gateway is ever requested of the root, so its timer stays idle. */
  lemma TickKeepsRoot(n: Node, dt: U32, r: RootState)
    requires RootOk(n, r) && Enabled(n, TickStep(dt))
    ensures RootOk(TickCenter(n, dt), r)
  {
    assert TickCenter(n, dt).boards == n.boards;
  }

  lemma StepKeepsRoot(n: Node, step: Step, r: RootState)
    requires AllOk(n) && RootOk(n, r) && Enabled(n, step)
    requires step.PeerStep? ==> step.event.Connected? || step.event.Handshake?
    ensures RootOk(Next(n, step), r)
  {
    match step {
      case ReceiveStep(b) => ReceiveKeepsRoot(n, b, r);
      case DispatchStep(b) =>
        if b == Center(n) { CenterDispatchKeepsRoot(n, r); }
        else if Provisions(n.boards[b]) { ProvisionKeepsRoot(n, b, r); }
        else { QuietDispatchKeepsRoot(n, b, r); }
      case ActStep(b) => ActKeepsRoot(n, b, r);
      case ExitStep(b) => ExitKeepsRoot(n, b, r);
      case PeerStep(b, ev) => PeerKeepsRoot(n, b, ev, r);
      case OwedStep(b, id) => OwedKeepsRoot(n, b, id, r);
      case RequestStep(b, cs) => RequestKeepsRoot(n, b, cs, r);
      case TickStep(dt) => TickKeepsRoot(n, dt, r);
    }
  }

  lemma {:induction false} RunKeepsRoot(n: Node, steps: seq<Step>, r: RootState)
    requires AllOk(n) && RootOk(n, r) && IsRun(n, steps) && OnlyHandshakes(steps)
    ensures AllOk(After(n, steps)) && RootOk(After(n, steps), r)
    decreases |steps|
  {
    if steps != [] {
      StepKeepsAll(n, steps[0]);
      StepKeepsRoot(n, steps[0], r);
      RunKeepsRoot(Next(n, steps[0]), steps[1..], r);
    }
  }

  lemma StartIsRootOk(size: nat, r: RootState)
    requires 2 <= size <= 7 && !r.gatewayRequested
    ensures RootOk(Start(size, Role.Root(r)), r)
  {
    var n := Start(size, Role.Root(r));
    forall b | 0 <= b < size ensures Bare(n.boards[b], n.inbox[b]) && CalmBoard(n.boards[b], n.inbox[b]) {
      StartIsBare(StartRole(size, Role.Root(r), b), size);
    }
  }

  lemma StartIsBare(role: Role, gateway: U8)
    requires role.Root? || role == Forwarder(FORWARDER_START)
    ensures Bare(StartBoard(role, gateway), []) && CalmBoard(StartBoard(role, gateway), [])
  {
    assert Undone(StartBoard(role, gateway)) == [Queued(0, OnStart)];
    assert [Queued(0, OnStart)][1..] == [];
    assert !InScript([]) && InboxNets([]) == [];
  }

  // ---------- at rest ----------

  lemma RootAtRest(n: Node, r: RootState)
    requires AllOk(n) && RootOk(n, r) && AtRest(n) && !n.panicked
    ensures |n.provisioners| <= 1
    ensures forall b :: 0 <= b < Center(n) ==> Holds(n.boards[b].local, b, Prevailing(n, r))
  {
    var p := Source(n);
    assert !Undecided(n);
    assert !n.boards[p].inside && n.boards[p].script == [];
    forall b | 0 <= b < Center(n) ensures Holds(n.boards[b].local, b, Prevailing(n, r)) {
      assert InOrder(n.boards[b], n.inbox[b], b, p, false, Prevailing(n, r));
    }
  }

  lemma CalmRoot(size: nat, r: RootState, steps: seq<Step>)
    requires 2 <= size <= 7 && !r.gatewayRequested && IsRun(Start(size, Role.Root(r)), steps) && OnlyHandshakes(steps)
    ensures var n := After(Start(size, Role.Root(r)), steps); AllOk(n) && RootOk(n, r) && |n.boards| == size
  {
    StartIsAllOk(size, Role.Root(r));
    StartIsRootOk(size, r);
    RunKeepsRoot(Start(size, Role.Root(r)), steps, r);
  }

  /** A root node at rest after start, connect and handshake events only: all forwarders hold their share of one
      network, that of the one handshake that took the provisioning branch or, if none did, the root's. */
  lemma ForwardersAgree(size: nat, r: RootState, steps: seq<Step>)
    requires 2 <= size <= 7 && !r.gatewayRequested && IsRun(Start(size, Role.Root(r)), steps) && OnlyHandshakes(steps)
    requires var n := After(Start(size, Role.Root(r)), steps); AtRest(n) && !n.panicked
    ensures var n := After(Start(size, Role.Root(r)), steps);
            && |n.boards| == size && |n.provisioners| <= 1 && OneTable(n)
            && forall b :: 0 <= b < size - 1 ==> Holds(n.boards[b].local, b, Prevailing(n, r))
  {
    CalmRoot(size, r, steps);
    RootAtRest(After(Start(size, Role.Root(r)), steps), r);
    RestingTables(After(Start(size, Role.Root(r)), steps));
  }

  lemma OneNetworkHeld(l: Local, b: nat, net: Network, other: Network)
    requires b < 7 && l.role.Forwarder? && Holds(l, b, net)
    ensures Holds(l, b, other) <==> other == net
  {}

  lemma RootPrevails(n: Node, r: RootState)
    requires AllOk(n) && RootOk(n, r) && AtRest(n) && !n.panicked
    ensures (forall b :: 0 <= b < Center(n) ==> Holds(n.boards[b].local, b, r.network))
            <==> Prevailing(n, r) == r.network
  {
    RootAtRest(n, r);
    forall b | 0 <= b < Center(n)
      ensures Holds(n.boards[b].local, b, r.network) <==> r.network == Prevailing(n, r)
    {
      OneNetworkHeld(n.boards[b].local, b, Prevailing(n, r), r.network);
    }
    if Prevailing(n, r) != r.network { assert !Holds(n.boards[0].local, 0, r.network); }
  }

  /** So the root's own network reaches its forwarders if and only if no handshake provided another one first. */
  lemma RootPrevailsExactlyIfFirst(size: nat, r: RootState, steps: seq<Step>)
    requires 2 <= size <= 7 && !r.gatewayRequested && IsRun(Start(size, Role.Root(r)), steps) && OnlyHandshakes(steps)
    requires var n := After(Start(size, Role.Root(r)), steps); AtRest(n) && !n.panicked
    ensures var n := After(Start(size, Role.Root(r)), steps);
            && |n.boards| == size
            && ((forall b :: 0 <= b < size - 1 ==> Holds(n.boards[b].local, b, r.network))
                <==> n.provisioners == [] || n.provisioners[0].1 == r.network)
  {
    CalmRoot(size, r, steps);
    RootPrevails(After(Start(size, Role.Root(r)), steps), r);
  }

  // ---------- a root that comes second ----------

  /** A peer hands `net` to the forwarder of a node of two, which is served before the root. */
  function EarlyHandshake(net: Network, dtr: U32): seq<Step> {
    [PeerStep(0, Handshake(NONE, net, dtr)), OwedStep(1, 0), ReceiveStep(0), DispatchStep(0), DispatchStep(0)]
  }

  lemma RunOne(n: Node, step: Step, rest: seq<Step>)
    requires Enabled(n, step) && IsRun(Next(n, step), rest)
    ensures IsRun(n, [step] + rest) && After(n, [step] + rest) == After(Next(n, step), rest)
  {
    assert ([step] + rest)[1..] == rest;
  }

  /** The grant reaches the forwarder with the handshake in its queue. */
  lemma GrantArrives(r: RootState, net: Network, dtr: U32) returns (n: Node)
    ensures var start := Start(2, Role.Root(r));
            && Enabled(start, PeerStep(0, Handshake(NONE, net, dtr)))
            && var arrived := Next(start, PeerStep(0, Handshake(NONE, net, dtr)));
               Enabled(arrived, OwedStep(1, 0)) && n == Next(arrived, OwedStep(1, 0))
    ensures Shape(n) && n.inbox[0] == [Mine(ROUTING, 0)] && n.provisioners == [] && !n.panicked && |n.boards| == 2
    ensures n.boards[0] == StartBoard(Forwarder(FORWARDER_START), 2)
                             .(external := [Queued(1, Handshake(NONE, net, dtr))], owed := {0, 1}, nextId := 2)
  {
    var arrived := Next(Start(2, Role.Root(r)), PeerStep(0, Handshake(NONE, net, dtr)));
    assert arrived.boards[1].owed == {0};
    n := Next(arrived, OwedStep(1, 0));
    assert n.components[ROUTING].slot.tokenOut;
  }

  lemma HandshakeIsServed(n: Node, net: Network, dtr: U32)
    requires Shape(n) && n.inbox[0] == [Mine(ROUTING, 0)] && n.provisioners == [] && !n.panicked && |n.boards| == 2
    requires n.boards[0] == StartBoard(Forwarder(FORWARDER_START), 2)
                              .(external := [Queued(1, Handshake(NONE, net, dtr))], owed := {0, 1}, nextId := 2)
    ensures IsRun(n, [ReceiveStep(0), DispatchStep(0), DispatchStep(0)])
    ensures var m := After(n, [ReceiveStep(0), DispatchStep(0), DispatchStep(0)]);
            m.provisioners == [(0, net)] && !m.panicked && |m.boards| == 2 && Holds(m.boards[0].local, 0, net)
  {
    var entered := Next(n, ReceiveStep(0));
    assert entered.boards[0] == n.boards[0].(inside := true);
    var started := Next(entered, DispatchStep(0));
    assert started.boards[0] == entered.boards[0].(done := 1);
    assert Provisions(started.boards[0]) && ProvidedNow(started.boards[0]) == net;
    RunOne(started, DispatchStep(0), []);
    RunOne(entered, DispatchStep(0), [DispatchStep(0)]);
    RunOne(n, ReceiveStep(0), [DispatchStep(0), DispatchStep(0)]);
  }

  lemma EarlyHandshakeRuns(r: RootState, net: Network, dtr: U32)
    ensures var start := Start(2, Role.Root(r));
            && IsRun(start, EarlyHandshake(net, dtr))
            && var n := After(start, EarlyHandshake(net, dtr));
               n.provisioners == [(0, net)] && !n.panicked && |n.boards| == 2 && Holds(n.boards[0].local, 0, net)
  {
    var start := Start(2, Role.Root(r));
    var first, second := PeerStep(0, Handshake(NONE, net, dtr)), OwedStep(1, 0);
    var n := GrantArrives(r, net, dtr);
    HandshakeIsServed(n, net, dtr);
    RunOne(Next(start, first), second, [ReceiveStep(0), DispatchStep(0), DispatchStep(0)]);
    RunOne(start, first, [second, ReceiveStep(0), DispatchStep(0), DispatchStep(0)]);
  }

  lemma {:induction false} ProvisionersStay(n: Node, steps: seq<Step>)
    requires IsRun(n, steps)
    ensures n.provisioners <= After(n, steps).provisioners
    decreases |steps|
  {
    if steps != [] {
      StepKeepsProvisioners(n, steps[0]);
      ProvisionersStay(Next(n, steps[0]), steps[1..]);
    }
  }

  lemma StepKeepsProvisioners(n: Node, step: Step)
    requires Enabled(n, step)
    ensures n.provisioners <= Next(n, step).provisioners
  {
    if step.DispatchStep? { DispatchIs(n, step.board); }
  }

  /** However such a node goes on, when it comes to rest its forwarder holds the peer's network, whatever the root's. */
  lemma RootIsOverruled(r: RootState, net: Network, dtr: U32, rest: seq<Step>)
    requires !r.gatewayRequested && OnlyHandshakes(rest)
    requires IsRun(Start(2, Role.Root(r)), EarlyHandshake(net, dtr))
    requires IsRun(After(Start(2, Role.Root(r)), EarlyHandshake(net, dtr)), rest)
    requires var n := After(After(Start(2, Role.Root(r)), EarlyHandshake(net, dtr)), rest);
             AtRest(n) && !n.panicked && |n.boards| == 2
    ensures var n := After(After(Start(2, Role.Root(r)), EarlyHandshake(net, dtr)), rest);
            Holds(n.boards[0].local, 0, net)
  {
    var early := After(Start(2, Role.Root(r)), EarlyHandshake(net, dtr));
    EarlyHandshakeRuns(r, net, dtr);
    CalmRoot(2, r, EarlyHandshake(net, dtr));
    RunKeepsRoot(early, rest, r);
    ProvisionersStay(early, rest);
    RootAtRest(After(early, rest), r);
  }
}
