/** A node: boards on a ring, their inboxes, the token leader, and every step a board can take. Board `b` has
    orientation b + 1; the last board is the center and the token leader. A step is work local to one board followed
    by at most one broadcast. Broadcasts are atomic here: RingBroadcast.dfy shows what one does hop by hop, and
    HopByHop.dfy proves the token and the log where copies reach one board after the other. Fields marked "history"
    record the past: no step reads them to decide anything. */
module NodeSystem {
  import opened Bits
  import opened Fifo
  import opened Networks
  import opened Roles
  import opened RoutingTables
  import opened Sync

  /** MAX_SIBL_EVENT_QUEUED and MAX_PEER_EVENT_QUEUED */
  const QUEUE_CAPACITY: nat := 16

  datatype Msg =
    | Token(sync: SyncMsg)                    // RS_SYNC
    | Event(event: SiblEvent)                 // RS_ROUTING
    | Copy(table: Table, version: nat)        // RS_SHARED_STATE; the version is history

  /** A queued event. The id only tells whether the request that follows the queueing has been made. */
  datatype Queued<E> = Queued(id: nat, event: E)

  datatype Board = Board(
    local: Local,
    table: Table,
    version: nat,                             // history: how much of the log the table holds
    inside: bool,                             // is_inside of the routing critical section
    internal: seq<Queued<SiblEvent>>,
    external: seq<Queued<PeerEvent>>,
    done: nat,                                // events dispatched in this critical section
    script: seq<Action>,                      // actions of the running handler that are still to come
    owed: set<nat>,                           // queued events whose request has not been made yet
    nextId: nat)

  /** Where a component's token is. */
  datatype Place = Nowhere | Flying(to: nat) | Held(holder: nat)

  /** One component at the leader, and its history. */
  datatype Component = Component(
    slot: Slot,
    token: Place,                             // history
    issued: nat, handled: nat, dropped: nat,  // history: rounds issued, requests handled, requests dropped
    finished: seq<seq<nat>>,                  // history: the boards of each finished round, in order
    current: seq<nat>)                        // history: the boards that have had the current token

  datatype Node = Node(
    boards: seq<Board>,
    inbox: seq<seq<Msg>>,
    components: seq<Component>,
    log: seq<Op>,                             // history: the table operations, in critical-section order
    provisioners: seq<(nat, Network)>,        // history: who took the provisioning branch of on_handshake
    panicked: bool,                           // history: an event was dropped because its queue was full
    calm: bool)                               // history: only connect and handshake events have come from peers

  predicate Shape(n: Node) {
    2 <= |n.boards| <= 7 && |n.inbox| == |n.boards| && |n.components| == COMPONENTS
  }

  predicate SameShape(n: Node, r: Node) {
    Shape(n) && Shape(r) && |r.boards| == |n.boards|
  }

  /** Only inboxes and components may differ. */
  predicate SameBoards(n: Node, r: Node) {
    && SameShape(n, r) && r.boards == n.boards && r.log == n.log
    && r.provisioners == n.provisioners && r.panicked == n.panicked && r.calm == n.calm
  }

  function Orientation(b: nat): U8
    requires b < 7
  {
    b + 1
  }

  function Center(n: Node): nat
    requires Shape(n)
  {
    |n.boards| - 1
  }

  // ---------- start ----------

  function StartBoard(role: Role, gateway: U8): Board {
    Board(Local(role, UNSET), Init(gateway), 0, false, [Queued(0, OnStart)], [], 0, [], {0}, 1)
  }

  const START_COMPONENT := Component(EMPTY_SLOT, Nowhere, 0, 0, 0, [], [])

  function StartRole(size: nat, center: Role, b: nat): Role {
    if b + 1 == size then center else Role.Forwarder(FORWARDER_START)
  }

  /** All boards created, the start event queued and the first request still to be made. */
  function Start(size: nat, center: Role): (r: Node)
    requires 2 <= size <= 7
    ensures Shape(r) && |r.boards| == size
    ensures forall b :: 0 <= b < size ==>
              r.boards[b] == StartBoard(StartRole(size, center, b), size) && r.inbox[b] == []
    ensures forall cs: ComponentId :: r.components[cs] == START_COMPONENT
  {
    Node(seq(size, b requires 0 <= b < size => StartBoard(StartRole(size, center, b), size)),
         seq(size, _ => []), seq(COMPONENTS, _ => START_COMPONENT), [], [], false, true)
  }

  // ---------- the token ----------

  function Send(n: Node, src: nat, m: Msg): (r: Node)
    ensures Shape(n) ==> SameBoards(n, r)
  {
    n.(inbox := Broadcast(n.inbox, src, m))
  }

  function PutComponent(n: Node, cs: ComponentId, c: Component): (r: Node)
    requires Shape(n)
    ensures SameBoards(n, r)
  {
    n.(components := n.components[cs := c])
  }

  /** issue_new_token */
  function Issue(n: Node, cs: ComponentId): (r: Node)
    requires Shape(n)
    ensures SameBoards(n, r)
  {
    var c := n.components[cs];
    Send(PutComponent(n, cs, c.(token := Flying(0), issued := c.issued + 1)), Center(n), Token(Grant(cs, FIRST)))
  }

  /** request_critical_section at the leader. */
  function LeaderRequest(n: Node, cs: ComponentId): (r: Node)
    requires Shape(n)
    ensures SameBoards(n, r)
  {
    var c := n.components[cs];
    var (slot, issue) := OnRequest(c.slot);
    var dropped := if !issue && slot == c.slot then c.dropped + 1 else c.dropped;
    var n1 := PutComponent(n, cs, c.(slot := slot, handled := c.handled + 1, dropped := dropped));
    if issue then Issue(n1, cs) else n1
  }

  /** sync_request_critical_section of board `b`. */
  function RequestBy(n: Node, b: nat, cs: ComponentId): (r: Node)
    requires Shape(n) && b < |n.boards|
    ensures SameBoards(n, r)
  {
    if b == Center(n) then LeaderRequest(n, cs) else Send(n, b, Token(Request(cs)))
  }

  /** Board `b` takes its grant from its inbox. */
  function Take(n: Node, b: nat, cs: ComponentId): (r: Node)
    requires Shape(n) && b < |n.boards| && n.inbox[b] != []
    ensures SameBoards(n, r)
  {
    var c := n.components[cs];
    PutComponent(n.(inbox := Pop(n.inbox, b)), cs, c.(token := Held(b), current := c.current + [b]))
  }

  /** The end of the leader's on_token_grant. */
  function EndRound(n: Node, cs: ComponentId): (r: Node)
    requires Shape(n)
    ensures SameBoards(n, r)
  {
    var c := n.components[cs];
    var (slot, issue) := OnRoundEnd(c.slot);
    var n1 := PutComponent(n, cs,
      c.(slot := slot, token := Nowhere, finished := c.finished + [c.current], current := []));
    if issue then Issue(n1, cs) else n1
  }

  /** The end of on_token_grant: a follower passes the token on, the leader ends the round. */
  function PassOn(n: Node, b: nat, cs: ComponentId): (r: Node)
    requires Shape(n) && b < |n.boards|
    ensures SameBoards(n, r)
  {
    if b == Center(n) then EndRound(n, cs)
    else
      var to := NextDevice(Orientation(b), |n.boards|);
      Send(PutComponent(n, cs, n.components[cs].(token := Flying(b + 1))), b, Token(Grant(cs, to)))
  }

  // ---------- the sibling task ----------

  function PutBoard(n: Node, b: nat, board: Board): (r: Node)
    requires Shape(n) && b < |n.boards|
    ensures SameShape(n, r)
  {
    n.(boards := n.boards[b := board])
  }

  function Enter(n: Node, b: nat): (r: Node)
    requires Shape(n) && b < |n.boards|
    ensures SameShape(n, r)
  {
    PutBoard(n, b, n.boards[b].(inside := true, done := 0))
  }

  /** The event is appended to the internal queue. */
  function QueueEvent(n: Node, b: nat, ev: SiblEvent): (r: Node)
    requires Shape(n) && b < |n.boards|
    ensures SameShape(n, r)
  {
    var board := n.boards[b];
    PutBoard(n, b, board.(internal := board.internal + [Queued(board.nextId, ev)], nextId := board.nextId + 1))
  }

  /** on_sibling_message of routing.c */
  function Enqueue(n: Node, b: nat, ev: SiblEvent): (r: Node)
    requires Shape(n) && b < |n.boards|
    ensures SameShape(n, r)
  {
    if |n.boards[b].internal| >= QUEUE_CAPACITY then n.(panicked := true)
    else RequestBy(QueueEvent(n, b, ev), b, ROUTING)
  }

  /** The sibling task handles the message at the head of its inbox. Only the routing component registers a callback. */
  function Receive(n: Node, b: nat): (r: Node)
    requires Shape(n) && b < |n.boards| && n.inbox[b] != []
    ensures SameShape(n, r)
  {
    var m, popped := n.inbox[b][0], n.(inbox := Pop(n.inbox, b));
    match m
    case Token(Grant(cs, destination)) =>
      if destination != Orientation(b) then popped
      else if cs == ROUTING then Enter(Take(n, b, cs), b)
      else PassOn(Take(n, b, cs), b, cs)
    case Token(Request(cs)) => if b == Center(n) then LeaderRequest(popped, cs) else popped
    case Event(ev) => Enqueue(popped, b, ev)
    case Copy(table, version) => PutBoard(popped, b, n.boards[b].(table := table, version := version))
  }

  function Total(board: Board): nat {
    |board.internal| + |board.external|
  }

  /** The outcome of the next queued event: sibling events first. */
  function NextOutcome(board: Board, orientation: U8): Outcome
    requires board.done < Total(board)
  {
    if board.done < |board.internal| then HandleSibling(board.local, orientation, board.internal[board.done].event)
    else HandlePeer(board.local, orientation, board.external[board.done - |board.internal|].event)
  }

  /** The next event takes the provisioning branch of on_handshake. */
  predicate Provisions(board: Board) {
    && |board.internal| <= board.done < Total(board)
    && board.external[board.done - |board.internal|].event.Handshake?
    && board.local.role.Forwarder? && board.local.role.fwd.global == WithoutNetwork
  }

  /** The network that it provisions the node with. */
  function ProvidedNow(board: Board): Network
    requires Provisions(board)
  {
    board.external[board.done - |board.internal|].event.provided
  }

  function Dispatch(n: Node, b: nat): (r: Node)
    requires Shape(n) && b < |n.boards| && n.boards[b].done < Total(n.boards[b])
    ensures SameShape(n, r)
  {
    var board := n.boards[b];
    var o := NextOutcome(board, Orientation(b));
    PutBoard(n, b, board.(local := o.local, done := board.done + 1, script := o.actions))
      .(provisioners := n.provisioners + if Provisions(board) then [(b, ProvidedNow(board))] else [])
  }

  function Act(n: Node, b: nat): (r: Node)
    requires Shape(n) && b < |n.boards| && n.boards[b].script != []
    ensures SameShape(n, r)
  {
    var board := n.boards[b].(script := n.boards[b].script[1..]);
    match n.boards[b].script[0]
    case Edit(op) =>
      var table, version := Apply(board.table, op), |n.log| + 1;
      Send(PutBoard(n, b, board.(table := table, version := version)).(log := n.log + [op]), b, Copy(table, version))
    case Refresh => Send(PutBoard(n, b, board), b, Copy(board.table, board.version))
    case Tell(ev) => Send(PutBoard(n, b, board), b, Event(ev))
    case ToPeer(_) => PutBoard(n, b, board)
  }

  /** The end of on_critical_section: the queues are cleared. */
  function Leave(n: Node, b: nat): (r: Node)
    requires Shape(n) && b < |n.boards|
    ensures SameShape(n, r)
  {
    PutBoard(n, b, n.boards[b].(inside := false, internal := [], external := [], done := 0))
  }

  /** The critical section ends and the token is passed on. */
  function Exit(n: Node, b: nat): (r: Node)
    requires Shape(n) && b < |n.boards|
    ensures SameShape(n, r)
  {
    PassOn(Leave(n, b), b, ROUTING)
  }

  // ---------- the other tasks ----------

  /** queue_peer_message up to the request, which is owed. */
  function PeerArrives(n: Node, b: nat, ev: PeerEvent): (r: Node)
    requires Shape(n) && b < |n.boards|
    ensures SameShape(n, r)
  {
    var board := n.boards[b];
    var calm := n.calm && (ev.Connected? || ev.Handshake?);
    if |board.external| >= QUEUE_CAPACITY then n.(panicked := true, calm := calm)
    else
      PutBoard(n, b, board.(external := board.external + [Queued(board.nextId, ev)],
                            owed := board.owed + {board.nextId}, nextId := board.nextId + 1)).(calm := calm)
  }

  /** The event's request is no longer owed. */
  function Pay(n: Node, b: nat, id: nat): (r: Node)
    requires Shape(n) && b < |n.boards|
    ensures SameShape(n, r)
  {
    PutBoard(n, b, n.boards[b].(owed := n.boards[b].owed - {id}))
  }

  /** The request that queue_peer_message or rt_on_start makes after queueing. */
  function RequestOwed(n: Node, b: nat, id: nat): (r: Node)
    requires Shape(n) && b < |n.boards|
    ensures SameShape(n, r)
  {
    RequestBy(Pay(n, b, id), b, ROUTING)
  }

  /** on_tick of the root's center. */
  function TickCenter(n: Node, dt: U32): (r: Node)
    requires Shape(n) && n.boards[Center(n)].local.role.Root?
    ensures SameShape(n, r)
  {
    var b := Center(n);
    var board := n.boards[b];
    var (r, fires) := Tick(board.local.role.root, dt);
    var n1 := PutBoard(n, b, board.(local := board.local.(role := Root(r))));
    if fires then Send(n1, b, Event(GatewayWinner(r.network, 1))) else n1
  }

  // ---------- steps and runs ----------

  datatype Step =
    | ReceiveStep(board: nat)
    | DispatchStep(board: nat)
    | ActStep(board: nat)
    | ExitStep(board: nat)
    | PeerStep(board: nat, event: PeerEvent)
    | OwedStep(board: nat, id: nat)
    | RequestStep(board: nat, cs: ComponentId)
    | TickStep(dt: U32)

  predicate Enabled(n: Node, step: Step) {
    && Shape(n)
    && (step.TickStep? || step.board < |n.boards|)
    && match step
       case ReceiveStep(b) => !n.boards[b].inside && n.inbox[b] != []
       case DispatchStep(b) => n.boards[b].inside && n.boards[b].script == [] && n.boards[b].done < Total(n.boards[b])
       case ActStep(b) => n.boards[b].inside && n.boards[b].script != []
       case ExitStep(b) => n.boards[b].inside && n.boards[b].script == [] && n.boards[b].done == Total(n.boards[b])
       case PeerStep(b, _) => !n.boards[b].inside
       case OwedStep(b, id) => id in n.boards[b].owed
       case RequestStep(_, _) => true
       case TickStep(_) => n.boards[Center(n)].local.role.Root?
  }

  function Next(n: Node, step: Step): (r: Node)
    requires Enabled(n, step)
    ensures SameShape(n, r)
  {
    match step
    case ReceiveStep(b) => Receive(n, b)
    case DispatchStep(b) => Dispatch(n, b)
    case ActStep(b) => Act(n, b)
    case ExitStep(b) => Exit(n, b)
    case PeerStep(b, ev) => PeerArrives(n, b, ev)
    case OwedStep(b, id) => RequestOwed(n, b, id)
    case RequestStep(b, cs) => RequestBy(n, b, cs)
    case TickStep(dt) => TickCenter(n, dt)
  }

  /** `steps` can be taken from `n` one after the other. */
  predicate IsRun(n: Node, steps: seq<Step>)
    decreases |steps|
  {
    steps == [] || (Enabled(n, steps[0]) && IsRun(Next(n, steps[0]), steps[1..]))
  }

  function After(n: Node, steps: seq<Step>): (r: Node)
    requires IsRun(n, steps)
    ensures Shape(n) ==> SameShape(n, r)
    decreases |steps|
  {
    if steps == [] then n else After(Next(n, steps[0]), steps[1..])
  }
}
