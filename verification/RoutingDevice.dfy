/** routing_t of one board, as routing.c updates it: two bounded event queues, the dispatch of a critical section and
    the route decision; and that a board of the node, whatever happens around it, dispatches exactly that. */
module RoutingDevices {
  import opened Bits
  import opened Centers
  import opened Forwarders
  import opened Forwarding
  import opened NodeSystem
  import opened Roles
  import opened RoutingTables
  import opened Sync
  import opened TokenRing

  /** The outcome of the first `k` queued events: all sibling events in order, then the peer events in order. */
  function RunQueues(l: Local, orientation: U8, internal: seq<SiblEvent>, external: seq<PeerEvent>, k: nat): Outcome
    requires k <= |internal| + |external|
  {
    if k == 0 then Outcome(l, [])
    else
      var before := RunQueues(l, orientation, internal, external, k - 1);
      var o := if k <= |internal| then HandleSibling(before.local, orientation, internal[k - 1])
               else HandlePeer(before.local, orientation, external[k - 1 - |internal|]);
      Outcome(o.local, before.actions + o.actions)
  }

  lemma OneMoreSibling(l: Local, orientation: U8, ints: seq<SiblEvent>, i: nat, before: seq<Action>)
    requires i < |ints|
    ensures var soFar, next := RunQueues(l, orientation, ints, [], i), RunQueues(l, orientation, ints, [], i + 1);
            var o := HandleSibling(soFar.local, orientation, ints[i]);
            next.local == o.local && before + next.actions == before + soFar.actions + o.actions
  {}

  lemma OneMorePeer(l: Local, orientation: U8, exts: seq<PeerEvent>, i: nat, before: seq<Action>)
    requires i < |exts|
    ensures var soFar, next := RunQueues(l, orientation, [], exts, i), RunQueues(l, orientation, [], exts, i + 1);
            var o := HandlePeer(soFar.local, orientation, exts[i]);
            next.local == o.local && before + next.actions == before + soFar.actions + o.actions
  {}

  lemma Associative(a: seq<Action>, b: seq<Action>, c: seq<Action>)
    ensures a + b + c == a + (b + c)
  {}

  function InTurn(first: Outcome, second: Outcome): Outcome {
    Outcome(second.local, first.actions + second.actions)
  }

  /** A queued event as it arrived: its id may be none that the source knows. */
  datatype Received<E> = Known(event: E) | Unknown

  /** Up to the first event of unknown id, these are the events of the queue. */
  predicate StartsWith<E(==)>(q: seq<Received<E>>, known: seq<E>) {
    && |known| <= |q| && (forall i :: 0 <= i < |known| ==> q[i] == Known(known[i]))
    && (|known| < |q| ==> q[|known|].Unknown?)
  }

  /** The events before the first of unknown id. */
  function Knowns<E(==)>(q: seq<Received<E>>): (r: seq<E>)
    ensures StartsWith(q, r)
  {
    if q == [] || q[0].Unknown? then [] else [q[0].event] + Knowns(q[1..])
  }

  predicate AllKnown<E(==)>(q: seq<Received<E>>) {
    |Knowns(q)| == |q|
  }

  /** What the events of known id among those from siblings, and among those from peers, come to. */
  function SiblingsOutcome(l: Local, orientation: U8, ints: seq<Received<SiblEvent>>): Outcome {
    RunQueues(l, orientation, Knowns(ints), [], |Knowns(ints)|)
  }

  function PeersOutcome(l: Local, orientation: U8, exts: seq<Received<PeerEvent>>): Outcome {
    RunQueues(l, orientation, [], Knowns(exts), |Knowns(exts)|)
  }

  /** What a critical section comes to: no event from a peer is dispatched if a sibling event has an unknown id. */
  function SectionOutcome(l: Local, orientation: U8, ints: seq<Received<SiblEvent>>, exts: seq<Received<PeerEvent>>)
    : Outcome
  {
    var first := SiblingsOutcome(l, orientation, ints);
    if AllKnown(ints) then InTurn(first, PeersOutcome(first.local, orientation, exts)) else first
  }

  /** A queue of events of known id. */
  function AllOf<E>(q: seq<E>): (r: seq<Received<E>>)
    ensures |r| == |q| && forall i :: 0 <= i < |q| ==> r[i] == Known(q[i])
  {
    seq(|q|, i requires 0 <= i < |q| => Known(q[i]))
  }

  lemma {:induction false} KnownsOfAll<E>(q: seq<E>)
    ensures Knowns(AllOf(q)) == q
  {
    var known := Knowns(AllOf(q));
    assert forall i :: 0 <= i < |known| ==> AllOf(q)[i] == Known(known[i]);
  }

  lemma {:induction false} OnlySiblings(l: Local, orientation: U8, ints: seq<SiblEvent>, exts: seq<PeerEvent>, k: nat)
    requires k <= |ints|
    ensures RunQueues(l, orientation, ints, exts, k) == RunQueues(l, orientation, ints, [], k)
  {
    if k > 0 { OnlySiblings(l, orientation, ints, exts, k - 1); }
  }

  lemma {:induction false} SiblingsThenPeers(l: Local, orientation: U8, ints: seq<SiblEvent>, exts: seq<PeerEvent>,
      i: nat)
    requires i <= |exts|
    ensures var first := RunQueues(l, orientation, ints, [], |ints|);
            RunQueues(l, orientation, ints, exts, |ints| + i)
            == InTurn(first, RunQueues(first.local, orientation, [], exts, i))
  {
    OnlySiblings(l, orientation, ints, exts, |ints|);
    if i > 0 {
      var first := RunQueues(l, orientation, ints, [], |ints|);
      var second := RunQueues(first.local, orientation, [], exts, i - 1);
      SiblingsThenPeers(l, orientation, ints, exts, i - 1);
      Associative(first.actions, second.actions, HandlePeer(second.local, orientation, exts[i - 1]).actions);
    }
  }

  lemma KnownOutcomes(l: Local, orientation: U8, ints: seq<SiblEvent>, exts: seq<PeerEvent>)
    ensures AllKnown(AllOf(ints)) && AllKnown(AllOf(exts))
    ensures SiblingsOutcome(l, orientation, AllOf(ints)) == RunQueues(l, orientation, ints, [], |ints|)
    ensures PeersOutcome(l, orientation, AllOf(exts)) == RunQueues(l, orientation, [], exts, |exts|)
  {
    KnownsOfAll(ints);
    KnownsOfAll(exts);
  }

  lemma KnownSection(l: Local, orientation: U8, ints: seq<Received<SiblEvent>>, exts: seq<Received<PeerEvent>>,
      first: Outcome)
    requires AllKnown(ints) && SiblingsOutcome(l, orientation, ints) == first
    ensures SectionOutcome(l, orientation, ints, exts) == InTurn(first, PeersOutcome(first.local, orientation, exts))
  {}

  /** With events of known id only, a critical section dispatches both queues to their ends, sibling events first. */
  lemma KnownEventsRun(l: Local, orientation: U8, ints: seq<SiblEvent>, exts: seq<PeerEvent>)
    ensures SectionOutcome(l, orientation, AllOf(ints), AllOf(exts))
            == RunQueues(l, orientation, ints, exts, |ints| + |exts|)
  {
    var first := RunQueues(l, orientation, ints, [], |ints|);
    assert SectionOutcome(l, orientation, AllOf(ints), AllOf(exts))
           == InTurn(first, PeersOutcome(first.local, orientation, AllOf(exts))) by {
      KnownOutcomes(l, orientation, ints, exts);
      KnownSection(l, orientation, AllOf(ints), AllOf(exts), first);
    }
    assert PeersOutcome(first.local, orientation, AllOf(exts))
           == RunQueues(first.local, orientation, [], exts, |exts|) by {
      KnownOutcomes(first.local, orientation, ints, exts);
    }
    SiblingsThenPeers(l, orientation, ints, exts, |exts|);
  }

  datatype Core =
    | ForwarderDevice(forwarder: ForwarderCore)
    | HomeDevice(home: HomeCore)
    | RootDevice(root: RootCore)

  class Routing {
    const orientation: U8
    const deps: Dependencies
    const core: Core
    const internal: array<Received<SiblEvent>>
    const external: array<Received<PeerEvent>>
    var internalCount: nat
    var externalCount: nat
    var requests: nat       // calls of sync_request_critical_section
    var panics: nat         // calls of os_panic, which logs and returns

    function CoreObject(): object {
      match core
      case ForwarderDevice(f) => f
      case HomeDevice(h) => h
      case RootDevice(r) => r
    }

    predicate WellFormed()
      reads this
    {
      && internal.Length == QUEUE_CAPACITY && external.Length == QUEUE_CAPACITY
      && internalCount <= QUEUE_CAPACITY && externalCount <= QUEUE_CAPACITY
      && match core
         case ForwarderDevice(f) => f.deps == deps && f.orientation == orientation
         case HomeDevice(h) => h.deps == deps && h.orientation == orientation
         case RootDevice(r) => r.deps == deps && r.orientation == orientation
    }

    function LocalState(): Local
      reads CoreObject()
    {
      match core
      case ForwarderDevice(f) => f.LocalState()
      case HomeDevice(h) => h.LocalState()
      case RootDevice(r) => r.LocalState()
    }

    function Internal(): seq<Received<SiblEvent>>
      requires WellFormed()
      reads this, internal
    {
      internal[..internalCount]
    }

    function External(): seq<Received<PeerEvent>>
      requires WellFormed()
      reads this, external
    {
      external[..externalCount]
    }

    predicate Did(o: Outcome, before: seq<Action>)
      reads CoreObject(), deps
    {
      LocalState() == o.local && deps.actions == before + o.actions
    }

    /** rt_create and rt_init_*, and the start event that rt_on_start queues. */
    constructor (orientation: U8, deps: Dependencies, core: Core)
      requires match core
               case ForwarderDevice(f) => f.deps == deps && f.orientation == orientation
               case HomeDevice(h) => h.deps == deps && h.orientation == orientation
               case RootDevice(r) => r.deps == deps && r.orientation == orientation
      ensures WellFormed() && this.orientation == orientation && this.deps == deps && this.core == core
      ensures Internal() == [Known(OnStart)] && External() == [] && requests == 0 && panics == 0
      ensures fresh(internal) && fresh(external)
    {
      this.orientation, this.deps, this.core := orientation, deps, core;
      internal := new Received<SiblEvent>[QUEUE_CAPACITY](_ => Known(OnStart));
      external := new Received<PeerEvent>[QUEUE_CAPACITY](_ => Known(Connected));
      internalCount, externalCount := 1, 0;
      requests, panics := 0, 0;
    }

    /** on_sibling_message: a full queue or a message of the wrong length drops the event. */
    method OnSiblingMessage(ev: Received<SiblEvent>, lengthOk: bool)
      requires WellFormed()
      modifies this`internalCount, this`requests, this`panics, internal
      ensures WellFormed()
      ensures lengthOk && old(internalCount) < QUEUE_CAPACITY ==>
                Internal() == old(Internal()) + [ev] && requests == old(requests) + 1 && panics == old(panics)
      ensures !(lengthOk && old(internalCount) < QUEUE_CAPACITY) ==>
                Internal() == old(Internal()) && requests == old(requests) && panics == old(panics) + 1
    {
      if internalCount >= QUEUE_CAPACITY || !lengthOk {
        panics := panics + 1;
        return;
      }
      internal[internalCount] := ev;
      internalCount := internalCount + 1;
      requests := requests + 1;
    }

    /** queue_peer_message */
    method QueuePeerMessage(ev: Received<PeerEvent>)
      requires WellFormed()
      modifies this`externalCount, this`requests, this`panics, external
      ensures WellFormed()
      ensures old(externalCount) < QUEUE_CAPACITY ==>
                External() == old(External()) + [ev] && requests == old(requests) + 1 && panics == old(panics)
      ensures old(externalCount) >= QUEUE_CAPACITY ==>
                External() == old(External()) && requests == old(requests) && panics == old(panics) + 1
    {
      if externalCount >= QUEUE_CAPACITY {
        panics := panics + 1;
        return;
      }
      external[externalCount] := ev;
      externalCount := externalCount + 1;
      requests := requests + 1;
    }

    /** One round of the first loop of on_critical_section: a handler that the role does not register is skipped. */
    method DispatchSibling(ev: SiblEvent)
      requires WellFormed() && deps.Valid()
      modifies CoreObject(), deps, deps.table, deps.table.entries
      ensures deps.Valid() && Did(HandleSibling(old(LocalState()), orientation, ev), old(deps.actions))
    {
      match core {
        case ForwarderDevice(f) =>
          match ev {
            case OnStart =>
            case UpdateDtr(dtr) => f.OnSiblUpdateDtr(dtr);
            case Provision(providerId, dtr, network) => f.OnSiblProvision(providerId, dtr, network);
            case SendGatewayRequest(path) => f.OnSiblSendNewGatewayRequest(path);
            case GatewayWinner(winner, dtr) => f.OnSiblNewGatewayWinner(winner, dtr);
          }
        case HomeDevice(h) =>
          match ev {
            case OnStart => h.OnStart();
            case Provision(providerId, dtr, network) => h.OnSiblProvision(providerId, dtr, network);
            case _ =>
          }
        case RootDevice(r) =>
          match ev {
            case OnStart => r.OnStart();
            case SendGatewayRequest(path) => r.OnSiblSendNewGatewayRequest(path);
            case _ =>
          }
      }
    }

    /** One round of the second loop. */
    method DispatchPeer(ev: PeerEvent)
      requires WellFormed() && deps.Valid()
      modifies CoreObject(), deps, deps.table, deps.table.entries
      ensures deps.Valid() && Did(HandlePeer(old(LocalState()), orientation, ev), old(deps.actions))
    {
      if core.ForwarderDevice? {
        var f := core.forwarder;
        match ev {
          case Handshake(external, provided, dtr) => f.OnPeerHandshake(external, provided, dtr);
          case PeerDtr(dtr) => f.OnPeerUpdateDtr(dtr);
          case GatewayRequest(path) => f.OnPeerNewGatewayRequest(path);
          case GatewayResponse(responder, dtr) => f.OnPeerNewGatewayResponse(responder, dtr);
          case Connected => f.OnPeerConnected();
          case Lost => f.OnPeerLost();
        }
      }
    }

    /** A round of the first loop: one event more has had its outcome. */
    method DispatchNextSibling(ev: SiblEvent, ghost i: nat, ghost l: Local, ghost before: seq<Action>,
        ghost ints: seq<SiblEvent>)
      requires WellFormed() && deps.Valid() && i < |ints| && ev == ints[i]
      requires Did(RunQueues(l, orientation, ints, [], i), before)
      modifies CoreObject(), deps, deps.table, deps.table.entries
      ensures deps.Valid() && Did(RunQueues(l, orientation, ints, [], i + 1), before)
    {
      DispatchSibling(ev);
      OneMoreSibling(l, orientation, ints, i, before);
    }

    method DispatchNextPeer(ev: PeerEvent, ghost i: nat, ghost l: Local, ghost before: seq<Action>,
        ghost exts: seq<PeerEvent>)
      requires WellFormed() && deps.Valid() && i < |exts| && ev == exts[i]
      requires Did(RunQueues(l, orientation, [], exts, i), before)
      modifies CoreObject(), deps, deps.table, deps.table.entries
      ensures deps.Valid() && Did(RunQueues(l, orientation, [], exts, i + 1), before)
    {
      DispatchPeer(ev);
      OneMorePeer(l, orientation, exts, i, before);
    }

    /** The first loop of on_critical_section. */
    method DispatchSiblings() returns (aborted: bool)
      requires WellFormed() && deps.Valid()
      modifies CoreObject(), deps, deps.table, deps.table.entries
      ensures deps.Valid() && aborted == !AllKnown(old(Internal()))
      ensures Did(SiblingsOutcome(old(LocalState()), orientation, old(Internal())), old(deps.actions))
    {
      ghost var l, before, ints := LocalState(), deps.actions, Knowns(Internal());
      assert before + [] == before;
      for i := 0 to internalCount
        invariant i <= |ints| && deps.Valid()
        invariant Did(RunQueues(l, orientation, ints, [], i), before)
      {
        assert internal[i] == old(Internal())[i];
        if internal[i].Unknown? { return true; }
        DispatchNextSibling(internal[i].event, i, l, before, ints);
      }
      return false;
    }

    /** The second loop. */
    method DispatchPeers() returns (aborted: bool)
      requires WellFormed() && deps.Valid()
      modifies CoreObject(), deps, deps.table, deps.table.entries
      ensures deps.Valid() && aborted == !AllKnown(old(External()))
      ensures Did(PeersOutcome(old(LocalState()), orientation, old(External())), old(deps.actions))
    {
      ghost var l, before, exts := LocalState(), deps.actions, Knowns(External());
      assert before + [] == before;
      for i := 0 to externalCount
        invariant i <= |exts| && deps.Valid()
        invariant Did(RunQueues(l, orientation, [], exts, i), before)
      {
        assert external[i] == old(External())[i];
        if external[i].Unknown? { return true; }
        DispatchNextPeer(external[i].event, i, l, before, exts);
      }
      return false;
    }

    /** Both loops of on_critical_section. */
    method DispatchAll() returns (aborted: bool)
      requires WellFormed() && deps.Valid()
      modifies CoreObject(), deps, deps.table, deps.table.entries
      ensures deps.Valid() && aborted == !(AllKnown(old(Internal())) && AllKnown(old(External())))
      ensures Did(SectionOutcome(old(LocalState()), orientation, old(Internal()), old(External())), old(deps.actions))
    {
      ghost var first := SiblingsOutcome(LocalState(), orientation, Internal());
      Associative(deps.actions, first.actions, PeersOutcome(first.local, orientation, External()).actions);
      aborted := DispatchSiblings();
      if !aborted { aborted := DispatchPeers(); }
    }

    /** on_critical_section: every sibling event, then every peer event, then both queues are empty. An event of unknown
        id ends the section with a panic and leaves both queues as they were. */
    method OnCriticalSection()
      requires WellFormed() && deps.Valid()
      modifies this`internalCount, this`externalCount, this`panics
      modifies CoreObject(), deps, deps.table, deps.table.entries
      ensures WellFormed() && deps.Valid()
      ensures var ints, exts := old(Internal()), old(External());
              && Did(SectionOutcome(old(LocalState()), orientation, ints, exts), old(deps.actions))
              && if AllKnown(ints) && AllKnown(exts)
                 then Internal() == [] && External() == [] && panics == old(panics)
                 else Internal() == ints && External() == exts && panics == old(panics) + 1
    {
      var aborted := DispatchAll();
      if aborted {
        panics := panics + 1;
      } else {
        externalCount := 0;
        internalCount := 0;
      }
    }

    /** rt_do_route */
    method DoRoute(dst: U32) returns (netif: Netif)
      requires deps.Valid()
      ensures netif == Forwarding.DoRoute(deps.table.Contents(), orientation, dst)
    {
      var output := deps.table.Route(dst);
      if output == orientation { return Wifi; }
      return Spi;
    }
  }

  // ---------- a board of the node does the same ----------

  function Events<E>(q: seq<Queued<E>>): (r: seq<E>)
    ensures |r| == |q| && forall i :: 0 <= i < |r| ==> r[i] == q[i].event
  {
    seq(|q|, i requires 0 <= i < |q| => q[i].event)
  }

  /** What the first `done` events of a board's queues come to, from the state it entered its critical section with. */
  function Come(start: Board, b: nat, done: nat): Outcome
    requires b < 7 && done <= Total(start)
  {
    RunQueues(start.local, Orientation(b), Events(start.internal), Events(start.external), done)
  }

  /** Equal but for the gateway timer of a root, which ticks at any time. */
  predicate SameButTimer(l: Local, m: Local) {
    && l.settings == m.settings
    && if l.role.Root? then m.role.Root? && l.role.root.network == m.role.root.network else l.role == m.role
  }

  lemma HandlersIgnoreTimer(l: Local, m: Local, orientation: U8)
    requires SameButTimer(l, m)
    ensures forall ev :: var o, p := HandleSibling(l, orientation, ev), HandleSibling(m, orientation, ev);
                         SameButTimer(o.local, p.local) && o.actions == p.actions
    ensures forall ev :: var o, p := HandlePeer(l, orientation, ev), HandlePeer(m, orientation, ev);
                         SameButTimer(o.local, p.local) && o.actions == p.actions
  {}

  /** The actions of the dispatched events that the board has carried out. */
  function CarriedOut(start: Board, board: Board, b: nat): seq<Action>
    requires b < 7 && board.done <= Total(start) && |board.script| <= |Come(start, b, board.done).actions|
  {
    var actions := Come(start, b, board.done).actions;
    actions[..|actions| - |board.script|]
  }

  /** The board is inside, with the queues it entered with; its state is what the dispatched events come to; its script
      still holds the last of their actions, and its table has had the edits among the others. */
  predicate Serving(start: Board, board: Board, b: nat)
    requires b < 7
  {
    && board.inside && board.internal == start.internal && board.external == start.external
    && board.done <= Total(board)
    && SameButTimer(board.local, Come(start, b, board.done).local)
    && |board.script| <= |Come(start, b, board.done).actions|
    && Come(start, b, board.done).actions == CarriedOut(start, board, b) + board.script
    && board.table == Edited(start.table, CarriedOut(start, board, b))
  }

  /** The grant opens the critical section with the queues as they are. */
  lemma EnteringServes(n: Node, b: nat)
    requires InsideOk(n) && Enabled(n, ReceiveStep(b)) && n.inbox[b][0] == Mine(ROUTING, b)
    ensures Serving(n.boards[b], Receive(n, b).boards[b], b)
    ensures CarriedOut(n.boards[b], Receive(n, b).boards[b], b) == []
  {}

  lemma DispatchServes(n: Node, start: Board, b: nat)
    requires Enabled(n, DispatchStep(b)) && Serving(start, n.boards[b], b)
    ensures var next := Dispatch(n, b).boards[b];
            Serving(start, next, b) && CarriedOut(start, next, b) == CarriedOut(start, n.boards[b], b)
  {
    var board := n.boards[b];
    var o := NextOutcome(board, Orientation(b));
    var before := Come(start, b, board.done);
    HandlersIgnoreTimer(board.local, before.local, Orientation(b));
    assert Come(start, b, board.done + 1).actions == before.actions + o.actions;
    assert (before.actions + o.actions)[..|before.actions|] == before.actions;
    assert CarriedOut(start, board, b) == before.actions;
  }

  lemma ActServes(n: Node, start: Board, b: nat)
    requires Enabled(n, ActStep(b)) && Serving(start, n.boards[b], b)
    ensures var board, next := n.boards[b], Act(n, b).boards[b];
            Serving(start, next, b) && CarriedOut(start, next, b) == CarriedOut(start, board, b) + [board.script[0]]
  {
    ActShortensScript(n, b);
    ShorterScriptServes(start, n.boards[b], Act(n, b).boards[b], b);
  }

  lemma ActShortensScript(n: Node, b: nat)
    requires Enabled(n, ActStep(b))
    ensures var board, next := n.boards[b], Act(n, b).boards[b];
            && next == board.(script := board.script[1..], table := next.table, version := next.version)
            && next.table == if board.script[0].Edit? then Apply(board.table, board.script[0].op) else board.table
  {}

  /** One more of some actions is carried out. */
  lemma OneCarriedOut(actions: seq<Action>, done: seq<Action>, script: seq<Action>)
    requires actions == done + script && script != []
    ensures actions == (done + [script[0]]) + script[1..]
    ensures actions[..|actions| - |script[1..]|] == done + [script[0]]
  {}

  lemma OneMoreEdit(t: Table, done: seq<Action>, action: Action)
    ensures Edited(t, done + [action]) == if action.Edit? then Apply(Edited(t, done), action.op) else Edited(t, done)
  {
    assert (done + [action])[..|done|] == done;
  }

  lemma ShorterScriptServes(start: Board, board: Board, next: Board, b: nat)
    requires b < 7 && Serving(start, board, b) && board.script != []
    requires next == board.(script := board.script[1..], table := next.table, version := next.version)
    requires next.table == if board.script[0].Edit? then Apply(board.table, board.script[0].op) else board.table
    ensures Serving(start, next, b) && CarriedOut(start, next, b) == CarriedOut(start, board, b) + [board.script[0]]
  {
    OneCarriedOut(Come(start, b, board.done).actions, CarriedOut(start, board, b), board.script);
    OneMoreEdit(start.table, CarriedOut(start, board, b), board.script[0]);
  }

  /** What board `b` carries out in a run, in order. */
  function Performed(n: Node, steps: seq<Step>, b: nat): seq<Action>
    requires IsRun(n, steps) && Shape(n) && b < |n.boards|
    decreases |steps|
  {
    if steps == [] then []
    else (if steps[0] == ActStep(b) then [n.boards[b].script[0]] else []) + Performed(Next(n, steps[0]), steps[1..], b)
  }

  /** No step but the board's own exit ends its service. */
  lemma StepServes(n: Node, step: Step, start: Board, b: nat)
    requires Enabled(n, step) && b < |n.boards| && Serving(start, n.boards[b], b) && step != ExitStep(b)
    ensures var next := Next(n, step).boards[b];
            && Serving(start, next, b)
            && CarriedOut(start, next, b) == CarriedOut(start, n.boards[b], b)
                                             + if step == ActStep(b) then [n.boards[b].script[0]] else []
  {
    if step == DispatchStep(b) {
      DispatchServes(n, start, b);
    } else if step == ActStep(b) {
      ActServes(n, start, b);
    } else {
      OtherStepsLeaveBoard(n, step, b);
    }
  }

  lemma ReceivingLeavesOthers(n: Node, a: nat, b: nat)
    requires Enabled(n, ReceiveStep(a)) && b < |n.boards| && n.boards[b].inside
    ensures Receive(n, a).boards[b] == n.boards[b]
  {}

  lemma TickLeavesAllElse(n: Node, dt: U32, b: nat)
    requires Enabled(n, TickStep(dt)) && b < |n.boards|
    ensures var board, next := n.boards[b], TickCenter(n, dt).boards[b];
            next == board.(local := next.local) && SameButTimer(next.local, board.local)
  {}

  lemma QuietTasksLeaveBoard(n: Node, step: Step, b: nat)
    requires Enabled(n, step) && b < |n.boards| && n.boards[b].inside
    requires step.PeerStep? || step.OwedStep? || step.RequestStep?
    ensures Next(n, step).boards[b] == n.boards[b].(owed := Next(n, step).boards[b].owed)
  {}

  lemma OthersLeaveBoard(n: Node, step: Step, b: nat)
    requires Enabled(n, step) && (step.ExitStep? || step.DispatchStep? || step.ActStep?)
    requires b < |n.boards| && step.board != b
    ensures Next(n, step).boards[b] == n.boards[b]
  {}

  lemma OtherStepsLeaveBoard(n: Node, step: Step, b: nat)
    requires Enabled(n, step) && b < |n.boards| && n.boards[b].inside
    requires step != ExitStep(b) && step != DispatchStep(b) && step != ActStep(b)
    ensures var board, next := n.boards[b], Next(n, step).boards[b];
            next == board.(owed := next.owed, local := next.local) && SameButTimer(next.local, board.local)
  {
    match step {
      case ReceiveStep(a) => ReceivingLeavesOthers(n, a, b);
      case TickStep(dt) => TickLeavesAllElse(n, dt, b);
      case PeerStep(_, _) => QuietTasksLeaveBoard(n, step, b);
      case OwedStep(_, _) => QuietTasksLeaveBoard(n, step, b);
      case RequestStep(_, _) => QuietTasksLeaveBoard(n, step, b);
      case _ => OthersLeaveBoard(n, step, b);
    }
  }

  lemma {:induction false} RunServes(n: Node, steps: seq<Step>, start: Board, b: nat)
    requires IsRun(n, steps) && Shape(n) && b < |n.boards| && Serving(start, n.boards[b], b)
    requires forall i :: 0 <= i < |steps| ==> steps[i] != ExitStep(b)
    ensures Serving(start, After(n, steps).boards[b], b)
    ensures CarriedOut(start, After(n, steps).boards[b], b) ==
        CarriedOut(start, n.boards[b], b) + Performed(n, steps, b)
    decreases |steps|
  {
    if steps != [] {
      StepServes(n, steps[0], start, b);
      RestServes(n, steps, start, b);
    }
  }

  lemma {:induction false} RestServes(n: Node, steps: seq<Step>, start: Board, b: nat)
    requires IsRun(n, steps) && Shape(n) && b < |n.boards| && Serving(start, n.boards[b], b) && steps != []
    requires forall i :: 0 <= i < |steps| ==> steps[i] != ExitStep(b)
    requires var next := Next(n, steps[0]).boards[b];
             && Serving(start, next, b)
             && CarriedOut(start, next, b) == CarriedOut(start, n.boards[b], b)
                                              + if steps[0] == ActStep(b) then [n.boards[b].script[0]] else []
    ensures Serving(start, After(n, steps).boards[b], b)
    ensures CarriedOut(start, After(n, steps).boards[b], b) ==
        CarriedOut(start, n.boards[b], b) + Performed(n, steps, b)
    decreases |steps|, 0
  {
    var first := if steps[0] == ActStep(b) then [n.boards[b].script[0]] else [];
    RunServes(Next(n, steps[0]), steps[1..], start, b);
    Associative(CarriedOut(start, n.boards[b], b), first, Performed(Next(n, steps[0]), steps[1..], b));
  }

  lemma ServedWhenDone(start: Board, last: Board, b: nat)
    requires b < 7 && Serving(start, last, b) && last.script == [] && last.done == Total(last)
    ensures var o := Come(start, b, Total(start));
            && SameButTimer(last.local, o.local) && CarriedOut(start, last, b) == o.actions
            && last.table == Edited(start.table, o.actions)
  {}

  /** From the moment a board takes its routing grant until it can leave its critical section, however the steps of
      the other boards interleave with its own, it does what OnCriticalSection does with the queues that it entered
      with: it carries out the same actions in the same order, its table has had exactly their edits, and its state is
      the same but for a root's timer, which may have ticked. */
  lemma BoardRunsItsQueues(n: Node, steps: seq<Step>, b: nat)
    requires InsideOk(n) && Enabled(n, ReceiveStep(b)) && n.inbox[b][0] == Mine(ROUTING, b)
    requires IsRun(Receive(n, b), steps) && Enabled(After(Receive(n, b), steps), ExitStep(b))
    requires forall i :: 0 <= i < |steps| ==> steps[i] != ExitStep(b)
    ensures var start, last := n.boards[b], After(Receive(n, b), steps).boards[b];
            var o := Come(start, b, Total(start));
            && SameButTimer(last.local, o.local)
            && Performed(Receive(n, b), steps, b) == o.actions
            && last.table == Edited(start.table, o.actions)
  {
    EnteringServes(n, b);
    ServesToTheEnd(Receive(n, b), steps, n.boards[b], b);
  }

  lemma ServesToTheEnd(n: Node, steps: seq<Step>, start: Board, b: nat)
    requires IsRun(n, steps) && Shape(n) && b < |n.boards| && Enabled(After(n, steps), ExitStep(b))
    requires Serving(start, n.boards[b], b) && CarriedOut(start, n.boards[b], b) == []
    requires forall i :: 0 <= i < |steps| ==> steps[i] != ExitStep(b)
    ensures var last, o := After(n, steps).boards[b], Come(start, b, Total(start));
            && SameButTimer(last.local, o.local) && Performed(n, steps, b) == o.actions
            && last.table == Edited(start.table, o.actions)
  {
    RunServes(n, steps, start, b);
    ServedWhenDone(start, After(n, steps).boards[b], b);
    assert [] + Performed(n, steps, b) == Performed(n, steps, b);
  }
}
