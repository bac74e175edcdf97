/** The routing table of a root node that no handshake has provisioned, once it is at rest: the center is the default
    gateway and every route stays inside the root's network, if the peers announced networks of it. Packets then leave
    where the table says, but for those to addresses of the root's network that no route covers. */
module RootTables {
  import opened Associations
  import opened Bits
  import opened Forwarding
  import opened HomeTables
  import opened Networks
  import opened NodeSystem
  import opened Provisioning
  import opened ReplicatedLog
  import opened Roles
  import opened RootProvisioning
  import opened RoutingTables

  /** A network that a node below the root announces. */
  ghost predicate Below(ext: Network, net: Network) {
    ext != NONE && Inside(ext, net)
  }

  /** The center adds the default route to itself; the forwarders add routes to networks below the root's. */
  ghost predicate OpFits(op: Op, size: nat, net: Network) {
    op.AddRoute? && if op.output == size then op.net == NONE else 1 <= op.output < size && Below(op.net, net)
  }

  ghost predicate ScriptFits(script: seq<Action>, size: nat, net: Network) {
    forall i :: 0 <= i < |script| ==> (script[i].Edit? ==> OpFits(script[i].op, size, net))
  }

  ghost predicate LogFits(log: seq<Op>, size: nat, net: Network) {
    forall i :: 0 <= i < |log| ==> OpFits(log[i], size, net)
  }

  ghost predicate PeersFit(q: seq<Queued<PeerEvent>>, net: Network) {
    forall i :: 0 <= i < |q| ==> (q[i].event.Handshake? ==> Below(q[i].event.external, net))
  }

  ghost predicate TablesFit(n: Node, net: Network)
    requires Shape(n)
  {
    && (forall b :: 0 <= b < |n.boards| ==> PeersFit(n.boards[b].external, net))
    && (n.provisioners == [] ==>
          && LogFits(n.log, |n.boards|, net)
          && forall b :: 0 <= b < |n.boards| ==> ScriptFits(n.boards[b].script, |n.boards|, net))
  }

  /** Nothing that TablesFit speaks of changes, but for queues that are cleared. */
  lemma FitDependsOn(n: Node, m: Node, net: Network)
    requires Shape(n) && TablesFit(n, net) && SameShape(n, m) && m.log == n.log && m.provisioners == n.provisioners
    requires forall b :: 0 <= b < |n.boards| ==>
               && m.boards[b].script == n.boards[b].script
               && (m.boards[b].external == n.boards[b].external || m.boards[b].external == [])
    ensures TablesFit(m, net)
  {}

  // ---------- dispatching ----------

  lemma ForwarderScriptFits(board: Board, b: nat, size: nat, net: Network)
    requires b + 1 < size <= 7 && board.local.role.Forwarder? && board.done < Total(board) && CalmBoard(board, [])
    requires PeersFit(board.external, net) && !Provisions(board)
    ensures ScriptFits(Dispatched(board, b).script, size, net)
  {}

  lemma RootScriptFits(board: Board, size: nat, net: Network)
    requires 2 <= size <= 7 && board.local.role.Root? && board.done < Total(board) && CalmBoard(board, [])
    ensures ScriptFits(Dispatched(board, size - 1).script, size, net)
  {}

  lemma DispatchKeepsFit(n: Node, b: nat, r: RootState, net: Network)
    requires RootOk(n, r) && TablesFit(n, net) && Enabled(n, DispatchStep(b))
    ensures TablesFit(Dispatch(n, b), net)
  {
    var board := n.boards[b];
    DispatchIs(n, b);
    assert CalmBoard(board, n.inbox[b]);
    if b == Center(n) { RootScriptFits(board, |n.boards|, net); }
    else if !Provisions(board) { ForwarderScriptFits(board, b, |n.boards|, net); }
  }

  // ---------- the other steps ----------

  lemma ActKeepsFit(n: Node, b: nat, net: Network)
    requires Shape(n) && TablesFit(n, net) && Enabled(n, ActStep(b))
    ensures TablesFit(Act(n, b), net)
  {
    ActSends(n, b);
    ActEdits(n, b);
    if n.provisioners == [] { assert ScriptFits(n.boards[b].script, |n.boards|, net); }
  }

  lemma PeerKeepsFit(n: Node, b: nat, ev: PeerEvent, net: Network)
    requires Shape(n) && TablesFit(n, net) && Enabled(n, PeerStep(b, ev)) && (ev.Handshake? ==> Below(ev.external, net))
    ensures TablesFit(PeerArrives(n, b, ev), net)
  {
    var m := PeerArrives(n, b, ev);
    QueueStaysFit(n.boards[b].external, Queued(n.boards[b].nextId, ev), net);
    forall a | 0 <= a < |n.boards|
      ensures m.boards[a].script == n.boards[a].script && PeersFit(m.boards[a].external, net)
    {
      assert PeersFit(n.boards[a].external, net);
    }
  }

  lemma QueueStaysFit(q: seq<Queued<PeerEvent>>, e: Queued<PeerEvent>, net: Network)
    requires PeersFit(q, net) && (e.event.Handshake? ==> Below(e.event.external, net))
    ensures PeersFit(q + [e], net)
  {}

  lemma ReceiveKeepsFit(n: Node, b: nat, net: Network)
    requires Shape(n) && TablesFit(n, net) && Enabled(n, ReceiveStep(b))
    ensures TablesFit(Receive(n, b), net)
  {
    ReceiveLeavesSources(n, b);
    FitDependsOn(n, Receive(n, b), net);
  }

  lemma QuietStepKeepsFit(n: Node, step: Step, net: Network)
    requires Shape(n) && TablesFit(n, net) && Enabled(n, step)
    requires step.ExitStep? || step.OwedStep? || step.RequestStep? || step.TickStep?
    ensures TablesFit(Next(n, step), net)
  {
    FitDependsOn(n, Next(n, step), net);
  }

  /** Only connects and handshakes come from peers, and they announce networks below the root's. */
  ghost predicate RunBelow(steps: seq<Step>, net: Network) {
    && OnlyHandshakes(steps)
    && forall i :: 0 <= i < |steps| ==>
         (steps[i].PeerStep? && steps[i].event.Handshake? ==> Below(steps[i].event.external, net))
  }

  lemma StepKeepsFit(n: Node, step: Step, r: RootState, net: Network)
    requires RootOk(n, r) && TablesFit(n, net) && Enabled(n, step)
    requires step.PeerStep? && step.event.Handshake? ==> Below(step.event.external, net)
    ensures TablesFit(Next(n, step), net)
  {
    match step {
      case ReceiveStep(b) => ReceiveKeepsFit(n, b, net);
      case DispatchStep(b) => DispatchKeepsFit(n, b, r, net);
      case ActStep(b) => ActKeepsFit(n, b, net);
      case PeerStep(b, ev) => PeerKeepsFit(n, b, ev, net);
      case _ => QuietStepKeepsFit(n, step, net);
    }
  }

  lemma StepKeepsRootTable(n: Node, step: Step, r: RootState, net: Network)
    requires AllOk(n) && RootOk(n, r) && TablesFit(n, net) && Enabled(n, step)
    requires step.PeerStep? ==> step.event.Connected? || step.event.Handshake?
    requires step.PeerStep? && step.event.Handshake? ==> Below(step.event.external, net)
    ensures var m := Next(n, step); AllOk(m) && RootOk(m, r) && TablesFit(m, net)
  {
    StepKeepsAll(n, step);
    StepKeepsRoot(n, step, r);
    StepKeepsFit(n, step, r, net);
  }

  lemma BelowRest(steps: seq<Step>, net: Network)
    requires RunBelow(steps, net) && steps != []
    ensures RunBelow(steps[1..], net)
  {}

  lemma {:induction false} RunKeepsFit(n: Node, steps: seq<Step>, r: RootState, net: Network)
    requires AllOk(n) && RootOk(n, r) && TablesFit(n, net) && IsRun(n, steps) && RunBelow(steps, net)
    ensures var m := After(n, steps); AllOk(m) && RootOk(m, r) && TablesFit(m, net)
    decreases |steps|
  {
    if steps != [] {
      StepKeepsRootTable(n, steps[0], r, net);
      BelowRest(steps, net);
      RunKeepsFit(Next(n, steps[0]), steps[1..], r, net);
    }
  }

  // ---------- the table at rest ----------

  lemma EntryStaysInside(log: seq<Op>, size: nat, net: Network, key: Network, value: U8)
    requires LogFits(log, size, net) && AddRoute(key, value) in log && key != NONE
    ensures 1 <= value < size && Inside(key, net)
  {
    var i :| 0 <= i < |log| && log[i] == AddRoute(key, value);
    assert OpFits(log[i], size, net);
  }

  lemma GatewayIsCenter(log: seq<Op>, size: nat, net: Network, gateway: U8)
    requires LogFits(log, size, net) && AddRoute(NONE, gateway) in log
    ensures gateway == size
  {
    var i :| 0 <= i < |log| && log[i] == AddRoute(NONE, gateway);
    assert OpFits(log[i], size, net);
  }

  /** A table that such a log has made. */
  lemma TableStaysInside(log: seq<Op>, size: nat, net: Network, table: Table)
    requires 2 <= size <= 7 && LogFits(log, size, net) && table == Fold(Init(size), log)
    ensures WellFormed(table) && table.defaultGateway == size
    ensures forall j :: 0 <= j < |table.entries| ==>
              1 <= table.entries[j].value < size && Inside(table.entries[j].key, net)
  {
    var m := MapFold(RouteMap(size, map[]), log);
    OperationsRefineMap(size, log);
    MapOfAdds(size, log);
    if m.defaultGateway != size { GatewayIsCenter(log, size, net, m.defaultGateway); }
    forall j | 0 <= j < |table.entries|
      ensures 1 <= table.entries[j].value < size && Inside(table.entries[j].key, net)
    {
      ValueInMap(table.entries, j);
      EntryStaysInside(log, size, net, table.entries[j].key, table.entries[j].value);
    }
  }

  /** The boards of the node as stations, in whatever order the ring has them. */
  predicate RootStations(stations: seq<Station>, center: nat, size: nat, net: Network) {
    && IsNode(stations, center) && stations[center].hook == RootCenterHook
    && stations[center].orientation == size && stations[center].settings == net
    && forall o :: 1 <= o <= size ==> HasOrientation(stations, o)
  }

  lemma RootTableDelivers(table: Table, size: nat, net: Network, stations: seq<Station>, center: nat, dst: U32)
    returns (target: nat)
    requires 2 <= size <= 7 && RootStations(stations, center, size, net)
    requires OffLinks(stations, center, dst) && !PointToPoint(stations[center], dst)
    requires RoutesStayInside(stations[center], table)
    requires forall j :: 0 <= j < |table.entries| ==> 1 <= table.entries[j].value < size
    ensures target < |stations| && stations[target].orientation == Lookup(table, dst)
    ensures DeliversTo(stations, table, dst, target)
            <==> !(Contains(net, dst) && forall key :: key in Abstract(table).routes ==> !Contains(key, dst))
  {
    assert 1 <= Lookup(table, dst) <= size;
    assert HasOrientation(stations, Lookup(table, dst));
    target :| 0 <= target < |stations| && stations[target].orientation == Lookup(table, dst);
    RootCenterAgrees(stations[center], table, dst);
    DeliveredExactlyIfCenterAgrees(stations, center, table, dst, target);
  }

  lemma StartFits(size: nat, r: RootState, net: Network)
    requires 2 <= size <= 7
    ensures TablesFit(Start(size, Role.Root(r)), net)
  {
    var n := Start(size, Role.Root(r));
    assert forall b :: 0 <= b < size ==> n.boards[b].script == [] && n.boards[b].external == [];
  }

  lemma RestingRootTable(size: nat, r: RootState, steps: seq<Step>)
    requires 2 <= size <= 7 && !r.gatewayRequested && IsRun(Start(size, Role.Root(r)), steps)
    requires RunBelow(steps, r.network)
    requires var n := After(Start(size, Role.Root(r)), steps); AtRest(n) && n.provisioners == []
    ensures var n := After(Start(size, Role.Root(r)), steps);
            |n.boards| == size && n.boards[0].table == Fold(Init(size), n.log) && LogFits(n.log, size, r.network)
  {
    var start := Start(size, Role.Root(r));
    StartIsAllOk(size, Role.Root(r));
    StartIsRootOk(size, r);
    StartFits(size, r, r.network);
    RunKeepsFit(start, steps, r, r.network);
    BoardOnLog(After(start, steps), 0);
  }

  /** A root node at rest whose peers announced networks below the root's, and that no handshake provisioned: from
      wherever it starts, a packet for an address on no link leaves by Wi-Fi at the board that the table names, if and
      only if the address is outside the root's network or some route covers it. */
  lemma RootNodeDelivers(size: nat, r: RootState, steps: seq<Step>, stations: seq<Station>, center: nat, dst: U32)
    returns (target: nat)
    requires 2 <= size <= 7 && !r.gatewayRequested && IsRun(Start(size, Role.Root(r)), steps)
    requires RunBelow(steps, r.network)
    requires var n := After(Start(size, Role.Root(r)), steps); AtRest(n) && n.provisioners == [] && |n.boards| == size
    requires RootStations(stations, center, size, r.network)
    requires OffLinks(stations, center, dst) && !PointToPoint(stations[center], dst)
    ensures var table := After(Start(size, Role.Root(r)), steps).boards[0].table;
            && target < |stations| && stations[target].orientation == Lookup(table, dst)
            && (DeliversTo(stations, table, dst, target)
                <==> !(Contains(r.network, dst) && forall key :: key in Abstract(table).routes ==> !Contains(key, dst)))
  {
    var n := After(Start(size, Role.Root(r)), steps);
    RestingRootTable(size, r, steps);
    TableStaysInside(n.log, size, r.network, n.boards[0].table);
    target := RootTableDelivers(n.boards[0].table, size, r.network, stations, center, dst);
  }
}
