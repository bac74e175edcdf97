/** The routing table of a provisioned home at rest, and where its packets leave: what the handlers of all boards have
    put into the table over the whole run makes the center's hook agree with it. */
module HomeTables {
  import opened Associations
  import opened Bits
  import opened Fifo
  import opened Forwarding
  import opened Networks
  import opened NodeSystem
  import opened Provisioning
  import opened ReplicatedLog
  import opened Roles
  import opened RoutingTables
  import opened Sync

  // ---------- tables made by adds alone ----------

  predicate OnlyAdds(ops: seq<Op>) {
    forall i :: 0 <= i < |ops| ==> ops[i].AddRoute?
  }

  /** Every route, and the gateway once it has moved, comes from an add; and while the map is not full no add was
      lost. */
  lemma {:induction false} MapOfAdds(gateway: U8, ops: seq<Op>)
    requires OnlyAdds(ops)
    ensures var m := MapFold(RouteMap(gateway, map[]), ops);
            && (forall net :: net in m.routes ==> AddRoute(net, m.routes[net]) in ops)
            && (m.defaultGateway == gateway || AddRoute(NONE, m.defaultGateway) in ops)
            && (forall o: U8 :: AddRoute(NONE, o) in ops ==> AddRoute(NONE, m.defaultGateway) in ops)
            && (|m.routes| < MAX_ENTRIES ==>
                  forall net, o: U8 :: AddRoute(net, o) in ops && net != NONE ==> net in m.routes)
  {
    if ops != [] {
      var init, op := ops[..|ops| - 1], ops[|ops| - 1];
      MapOfAdds(gateway, init);
      assert ops == init + [op];
      var before := MapFold(RouteMap(gateway, map[]), init);
      MapGrows(before, op);
    }
  }

  lemma MapGrows(m: RouteMap, op: Op)
    requires op.AddRoute?
    ensures |m.routes| <= |MapApply(m, op).routes|
  {
    var r := MapApply(m, op);
    assert m.routes.Keys <= r.routes.Keys;
    SubsetIsSmaller(m.routes.Keys, r.routes.Keys);
  }

  lemma SubsetIsSmaller<T>(a: set<T>, b: set<T>)
    requires a <= b
    ensures |a| <= |b|
  {
    if a != {} {
      var x :| x in a;
      SubsetIsSmaller(a - {x}, b - {x});
    }
  }

  // ---------- where the table of a home comes from ----------

  /** A network that another node may announce: none, off the home's subnet, or a shorter prefix. */
  ghost predicate Harmless(ext: Network, home: Network) {
    ext == NONE || Disjoint(ext, home) || ext.mask < home.mask
  }

  /** Routes to the center are for the subnet that it holds; the others are harmless and lead to another board. */
  ghost predicate OpOk(op: Op, center: Local, size: nat, home: Network) {
    && op.AddRoute?
    && if op.output == size then center.role.Home? && center.role.isProvisioned && op.net == center.settings
       else 1 <= op.output < size && Harmless(op.net, home)
  }

  ghost predicate ScriptOk(script: seq<Action>, center: Local, size: nat, home: Network) {
    forall i :: 0 <= i < |script| ==> (script[i].Edit? ==> OpOk(script[i].op, center, size, home))
  }

  ghost predicate LogFrom(log: seq<Op>, center: Local, size: nat, home: Network) {
    forall i :: 0 <= i < |log| ==> OpOk(log[i], center, size, home)
  }

  ghost predicate PeersHarmless(q: seq<Queued<PeerEvent>>, home: Network) {
    forall i :: 0 <= i < |q| ==> (q[i].event.Handshake? ==> Harmless(q[i].event.external, home))
  }

  /** The operation has been made, or is among those that board `b` is about to make. */
  predicate MadeOrComing(n: Node, b: nat, op: Op) {
    b < |n.boards| && (op in n.log || Edit(op) in n.boards[b].script)
  }

  ghost predicate SourcesOk(n: Node, home: Network)
    requires Shape(n)
  {
    var size, center := |n.boards|, n.boards[Center(n)].local;
    && LogFrom(n.log, center, size, home)
    && (forall b :: 0 <= b < size ==>
          ScriptOk(n.boards[b].script, center, size, home) && PeersHarmless(n.boards[b].external, home))
    && (center.role.Home? && center.role.isProvisioned ==> MadeOrComing(n, Center(n), AddRoute(center.settings, size)))
    && (n.provisioners != [] ==>
          && n.provisioners[0].0 < Center(n)
          && MadeOrComing(n, n.provisioners[0].0, AddRoute(NONE, Orientation(n.provisioners[0].0))))
  }

  /** Nothing that SourcesOk speaks of changes, but for queues that are cleared. */
  lemma SourcesDependOn(n: Node, r: Node, home: Network)
    requires Shape(n) && SourcesOk(n, home) && SameShape(n, r) && r.log == n.log && r.provisioners == n.provisioners
    requires forall b :: 0 <= b < |n.boards| ==>
               && r.boards[b].script == n.boards[b].script && r.boards[b].local == n.boards[b].local
               && (r.boards[b].external == n.boards[b].external || r.boards[b].external == [])
    ensures SourcesOk(r, home)
  {}

  /** The parts of a board that SourcesOk speaks of are as before. */
  predicate SourcesLeft(n: Node, r: Node) {
    && SameShape(n, r) && r.log == n.log && r.provisioners == n.provisioners
    && forall a :: 0 <= a < |n.boards| ==>
         && r.boards[a].script == n.boards[a].script && r.boards[a].local == n.boards[a].local
         && r.boards[a].external == n.boards[a].external
  }

  lemma EnqueueLeavesSources(n: Node, b: nat, ev: SiblEvent)
    requires Shape(n) && b < |n.boards|
    ensures SourcesLeft(n, Enqueue(n, b, ev))
  {}

  lemma GrantLeavesSources(n: Node, b: nat, cs: ComponentId)
    requires Enabled(n, ReceiveStep(b)) && n.inbox[b][0] == Token(Grant(cs, Orientation(b)))
    ensures SourcesLeft(n, Receive(n, b))
  {}

  lemma ReceiveLeavesSources(n: Node, b: nat)
    requires Enabled(n, ReceiveStep(b))
    ensures SourcesLeft(n, Receive(n, b))
  {
    var m, popped := n.inbox[b][0], n.(inbox := Pop(n.inbox, b));
    match m {
      case Token(Grant(cs, destination)) => if destination == Orientation(b) { GrantLeavesSources(n, b, cs); }
      case Token(Request(cs)) =>
      case Event(ev) => EnqueueLeavesSources(popped, b, ev);
      case Copy(_, _) =>
    }
  }

  lemma ReceiveKeepsSources(n: Node, b: nat, home: Network)
    requires Shape(n) && SourcesOk(n, home) && Enabled(n, ReceiveStep(b))
    ensures SourcesOk(Receive(n, b), home)
  {
    ReceiveLeavesSources(n, b);
    SourcesDependOn(n, Receive(n, b), home);
  }

  lemma PeerKeepsSources(n: Node, b: nat, ev: PeerEvent, home: Network)
    requires Shape(n) && SourcesOk(n, home) && Enabled(n, PeerStep(b, ev))
        && (ev.Handshake? ==> Harmless(ev.external, home))
    ensures SourcesOk(PeerArrives(n, b, ev), home)
  {
    var r := PeerArrives(n, b, ev);
    QueueStaysHarmless(n.boards[b].external, Queued(n.boards[b].nextId, ev), home);
    forall a | 0 <= a < |n.boards|
      ensures r.boards[a].script == n.boards[a].script && r.boards[a].local == n.boards[a].local
              && PeersHarmless(r.boards[a].external, home)
    {
      assert PeersHarmless(n.boards[a].external, home);
    }
  }

  lemma QueueStaysHarmless(q: seq<Queued<PeerEvent>>, e: Queued<PeerEvent>, home: Network)
    requires PeersHarmless(q, home) && (e.event.Handshake? ==> Harmless(e.event.external, home))
    ensures PeersHarmless(q + [e], home)
  {}

  // ---------- dispatching ----------

  lemma ForwarderEdits(l: Local, b: nat, ev: PeerEvent, center: Local, size: nat, home: Network)
    requires l.role.Forwarder? && b + 1 < size <= 7 && (ev.Connected? || ev.Handshake?)
    requires ev.Handshake? ==> Harmless(ev.external, home)
    ensures ScriptOk(HandlePeer(l, Orientation(b), ev).actions, center, size, home)
  {}

  /** A forwarder's events, in a calm run, leave the center alone and make only harmless routes to itself. */
  lemma ForwarderDispatchKeeps(n: Node, b: nat, home: Network)
    requires RolesOk(n) && SourcesOk(n, home) && Enabled(n, DispatchStep(b)) && b < Center(n)
    requires CalmBoard(n.boards[b], n.inbox[b])
    ensures SourcesOk(Dispatch(n, b), home)
  {
    var r, board := Dispatch(n, b), n.boards[b];
    if board.done >= |board.internal| {
      var e := board.external[board.done - |board.internal|];
      assert PeersHarmless(board.external, home);
      ForwarderEdits(board.local, b, e.event, n.boards[Center(n)].local, |n.boards|, home);
    }
    assert ScriptOk(r.boards[b].script, n.boards[Center(n)].local, |n.boards|, home);
    ProviderStays(n, b, home);
  }

  lemma ProviderStays(n: Node, b: nat, home: Network)
    requires RolesOk(n) && SourcesOk(n, home) && Enabled(n, DispatchStep(b)) && b < Center(n)
    ensures var r := Dispatch(n, b);
            r.provisioners != [] ==>
              && r.provisioners[0].0 < Center(n)
              && MadeOrComing(r, r.provisioners[0].0, AddRoute(NONE, Orientation(r.provisioners[0].0)))
  {
    var r, board := Dispatch(n, b), n.boards[b];
    if n.provisioners == [] {
      if Provisions(board) { assert r.boards[b].script[0] == Edit(AddRoute(NONE, Orientation(b))); }
    }
  }

  predicate MakesNoEdit(script: seq<Action>) {
    forall i :: 0 <= i < |script| ==> !script[i].Edit?
  }

  /** The center's only edit is for the subnet that it takes, once. */
  lemma HomeOutcome(board: Board, size: U8)
    requires board.local.role.Home? && board.done < Total(board)
    ensures var l, o := board.local, NextOutcome(board, size);
            || (o.local == l && MakesNoEdit(o.actions))
            || (&& !l.role.isProvisioned && o.local.role.Home? && o.local.role.isProvisioned
                && o.actions == [Edit(AddRoute(o.local.settings, size))])
  {}

  lemma CenterDispatchKeeps(n: Node, home: Network)
    requires RolesOk(n) && SourcesOk(n, home) && Enabled(n, DispatchStep(Center(n)))
    ensures SourcesOk(Dispatch(n, Center(n)), home)
  {
    var c, r := Center(n), Dispatch(n, Center(n));
    HomeOutcome(n.boards[c], |n.boards|);
    DispatchIs(n, c);
    if r.boards[c].local == n.boards[c].local { CenterStays(n, r, home); } else { CenterSettles(n, r, home); }
  }

  lemma CenterSettles(n: Node, r: Node, home: Network)
    requires RolesOk(n) && SourcesOk(n, home) && SameShape(n, r) && n.boards[Center(n)].script == []
    requires r.boards == n.boards[Center(n) := r.boards[Center(n)]] && r.log == n.log
        && r.provisioners == n.provisioners
    requires !n.boards[Center(n)].local.role.isProvisioned
    requires var board := r.boards[Center(n)];
             && board.local.role.Home? && board.local.role.isProvisioned
             && board.external == n.boards[Center(n)].external
             && board.script == [Edit(AddRoute(board.local.settings, |n.boards|))]
    ensures SourcesOk(r, home)
  {
    var c := Center(n);
    assert r.boards[c].script[0] == Edit(AddRoute(r.boards[c].local.settings, |n.boards|));
    assert forall b :: 0 <= b < c ==> r.boards[b] == n.boards[b];
  }

  lemma CenterStays(n: Node, r: Node, home: Network)
    requires RolesOk(n) && SourcesOk(n, home) && SameShape(n, r) && n.boards[Center(n)].script == []
    requires r.boards == n.boards[Center(n) := r.boards[Center(n)]] && r.log == n.log
        && r.provisioners == n.provisioners
    requires var c := Center(n);
             && r.boards[c].local == n.boards[c].local && r.boards[c].external == n.boards[c].external
             && MakesNoEdit(r.boards[c].script)
    ensures SourcesOk(r, home)
  {}

  // ---------- acting ----------

  lemma ActMakes(n: Node, b: nat, a: nat, op: Op)
    requires Enabled(n, ActStep(b)) && MadeOrComing(n, a, op)
    ensures MadeOrComing(Act(n, b), a, op)
  {
    var script := n.boards[b].script;
    assert script == [script[0]] + script[1..];
  }

  lemma ActKeepsSources(n: Node, b: nat, home: Network)
    requires RolesOk(n) && SourcesOk(n, home) && Enabled(n, ActStep(b))
    ensures SourcesOk(Act(n, b), home)
  {
    var r, center := Act(n, b), n.boards[Center(n)].local;
    ActSends(n, b);
    if center.role.isProvisioned { ActMakes(n, b, Center(n), AddRoute(center.settings, |n.boards|)); }
    if n.provisioners != [] {
      ActMakes(n, b, n.provisioners[0].0, AddRoute(NONE, Orientation(n.provisioners[0].0)));
    }
    ActLogs(n, b, home);
    assert ScriptOk(n.boards[b].script, center, |n.boards|, home);
  }

  lemma ActLogs(n: Node, b: nat, home: Network)
    requires Shape(n) && SourcesOk(n, home) && Enabled(n, ActStep(b))
    ensures LogFrom(Act(n, b).log, n.boards[Center(n)].local, |n.boards|, home)
  {
    ActEdits(n, b);
    assert ScriptOk(n.boards[b].script, n.boards[Center(n)].local, |n.boards|, home);
  }

  // ---------- runs ----------

  lemma ExitKeepsSources(n: Node, b: nat, home: Network)
    requires Shape(n) && SourcesOk(n, home) && Enabled(n, ExitStep(b))
    ensures SourcesOk(Exit(n, b), home)
  {
    SourcesDependOn(n, Exit(n, b), home);
  }

  lemma OwedKeepsSources(n: Node, b: nat, id: nat, home: Network)
    requires Shape(n) && SourcesOk(n, home) && Enabled(n, OwedStep(b, id))
    ensures SourcesOk(RequestOwed(n, b, id), home)
  {
    SourcesDependOn(n, RequestOwed(n, b, id), home);
  }

  lemma RequestKeepsSources(n: Node, b: nat, cs: ComponentId, home: Network)
    requires Shape(n) && SourcesOk(n, home) && b < |n.boards|
    ensures SourcesOk(RequestBy(n, b, cs), home)
  {
    SourcesDependOn(n, RequestBy(n, b, cs), home);
  }

  lemma StepKeepsSources(n: Node, step: Step, home: Network)
    requires RolesOk(n) && CalmOk(n) && n.calm && SourcesOk(n, home) && Enabled(n, step)
    requires step.PeerStep? && step.event.Handshake? ==> Harmless(step.event.external, home)
    ensures SourcesOk(Next(n, step), home)
  {
    match step {
      case ReceiveStep(b) => ReceiveKeepsSources(n, b, home);
      case DispatchStep(b) =>
        if b == Center(n) { CenterDispatchKeeps(n, home); } else { ForwarderDispatchKeeps(n, b, home); }
      case ActStep(b) => ActKeepsSources(n, b, home);
      case ExitStep(b) => ExitKeepsSources(n, b, home);
      case PeerStep(b, ev) => PeerKeepsSources(n, b, ev, home);
      case OwedStep(b, id) => OwedKeepsSources(n, b, id, home);
      case RequestStep(b, cs) => RequestKeepsSources(n, b, cs, home);
      case TickStep(_) =>
    }
  }

  /** Only connects and handshakes come from peers, and the networks they announce are harmless to the home's subnet. */
  ghost predicate HarmlessRun(steps: seq<Step>, home: Network) {
    && OnlyHandshakes(steps)
    && forall i :: 0 <= i < |steps| ==>
         (steps[i].PeerStep? && steps[i].event.Handshake? ==> Harmless(steps[i].event.external, home))
  }

  /** All that holds of a home node in a calm run. */
  ghost predicate HomeOk(n: Node, home: Network) {
    Shape(n) && AllOk(n) && ProvisioningOk(n) && n.calm && SourcesOk(n, home)
  }

  lemma StepStaysCalm(n: Node, step: Step)
    requires n.calm && Enabled(n, step) && (step.PeerStep? ==> step.event.Connected? || step.event.Handshake?)
    ensures Next(n, step).calm
  {}

  lemma StepKeepsHome(n: Node, step: Step, home: Network)
    requires HomeOk(n, home) && Enabled(n, step) && (step.PeerStep? ==> step.event.Connected? || step.event.Handshake?)
    requires step.PeerStep? && step.event.Handshake? ==> Harmless(step.event.external, home)
    ensures HomeOk(Next(n, step), home)
  {
    StepKeepsSources(n, step, home);
    StepKeepsAll(n, step);
    StepKeepsProvisioning(n, step);
    StepStaysCalm(n, step);
  }

  lemma HarmlessRest(steps: seq<Step>, home: Network)
    requires HarmlessRun(steps, home) && steps != []
    ensures HarmlessRun(steps[1..], home)
  {}

  lemma {:induction false} RunKeepsHome(n: Node, steps: seq<Step>, home: Network)
    requires HomeOk(n, home) && IsRun(n, steps) && HarmlessRun(steps, home)
    ensures HomeOk(After(n, steps), home)
    decreases |steps|
  {
    if steps != [] {
      StepKeepsHome(n, steps[0], home);
      HarmlessRest(steps, home);
      RunKeepsHome(Next(n, steps[0]), steps[1..], home);
    }
  }

  lemma StartSourcesOk(size: nat, home: Network)
    requires 2 <= size <= 7
    ensures SourcesOk(Start(size, Home(false)), home)
  {
    var n := Start(size, Home(false));
    assert forall b :: 0 <= b < size ==> n.boards[b].script == [] && n.boards[b].external == [];
  }

  // ---------- the table at rest ----------

  /** The subnet of a home is not harmless to itself. */
  lemma HomeIsItself(net: Network, o: U8)
    requires Aligned(net) && Len(net) <= MAX_PARENT && o <= 7
    ensures var home := GetNodeSubnet(net, o); home != NONE && !Harmless(home, home)
  {
    var home := GetNodeSubnet(net, o);
    SubnetRefinesParent(net, o);
    assert Contains(home, home.addr);
    assert Len(NONE) == 0;
  }

  /** The home's route is entry `i`; all others lead to other boards and are harmless. */
  ghost predicate HomeRouteAt(table: Table, i: nat, size: nat, home: Network) {
    && WellFormed(table) && 1 <= table.defaultGateway < size
    && i < |table.entries| && table.entries[i] == Entry(home, size)
    && forall j :: 0 <= j < |table.entries| && j != i ==>
         table.entries[j].key != home && EntryOk(table.entries[j], size, home)
  }

  lemma LogHasHomeAndGateway(n: Node, home: Network)
    requires AllOk(n) && RolesOk(n) && AtRest(n) && SourcesOk(n, home) && n.provisioners != []
    requires n.boards[Center(n)].local.role.isProvisioned
    ensures AddRoute(n.boards[Center(n)].local.settings, |n.boards|) in n.log
    ensures exists o: U8 :: AddRoute(NONE, o) in n.log
  {
    NobodyActs(n);
    var p := n.provisioners[0].0;
    assert MadeOrComing(n, p, AddRoute(NONE, Orientation(p)));
    assert AddRoute(NONE, Orientation(p)) in n.log;
  }

  /** A table that such a log has made, with room left. */
  lemma TableOfLog(log: seq<Op>, center: Local, size: nat, home: Network, table: Table) returns (i: nat)
    requires 2 <= size <= 7 && LogFrom(log, center, size, home) && center.settings == home
    requires home != NONE && !Harmless(home, home) && AddRoute(home, size) in log
    requires exists o: U8 :: AddRoute(NONE, o) in log
    requires table == Fold(Init(size), log) && |table.entries| < MAX_ENTRIES
    ensures HomeRouteAt(table, i, size, home)
  {
    var m := MapFold(RouteMap(size, map[]), log);
    OperationsRefineMap(size, log);
    MapOfAdds(size, log);
    SizeOfMap(table.entries);
    GatewayIsABoard(log, center, size, home, m.defaultGateway);
    forall j | 0 <= j < |table.entries| ensures EntryOk(table.entries[j], size, home) {
      ValueInMap(table.entries, j);
      RouteIsOk(log, center, size, home, table.entries[j].key, table.entries[j].value);
    }
    KeysOfMap(table.entries, home);
    i :| 0 <= i < |table.entries| && table.entries[i].key == home;
  }

  ghost predicate EntryOk(e: Route, size: nat, home: Network) {
    if e.key == home then e.value == size else 1 <= e.value < size && Harmless(e.key, home)
  }

  lemma RouteIsOk(log: seq<Op>, center: Local, size: nat, home: Network, key: Network, value: U8)
    requires LogFrom(log, center, size, home) && center.settings == home && !Harmless(home, home)
    requires AddRoute(key, value) in log
    ensures EntryOk(Entry(key, value), size, home)
  {
    var i :| 0 <= i < |log| && log[i] == AddRoute(key, value);
    assert OpOk(log[i], center, size, home);
  }

  lemma GatewayIsABoard(log: seq<Op>, center: Local, size: nat, home: Network, gateway: U8)
    requires LogFrom(log, center, size, home) && center.settings == home && home != NONE
    requires AddRoute(NONE, gateway) in log
    ensures 1 <= gateway < size
  {
    var i :| 0 <= i < |log| && log[i] == AddRoute(NONE, gateway);
    assert OpOk(log[i], center, size, home);
  }

  lemma NobodyActs(n: Node)
    requires AllOk(n) && AtRest(n)
    ensures forall b :: 0 <= b < |n.boards| ==> n.boards[b].script == []
  {}

  // ---------- where packets leave ----------

  predicate HasOrientation(stations: seq<Station>, o: nat) {
    exists p :: 0 <= p < |stations| && stations[p].orientation == o
  }

  /** The boards of the node as stations, in whatever order the ring has them. */
  predicate StationsOf(stations: seq<Station>, center: nat, size: nat, settings: Network) {
    && IsNode(stations, center) && stations[center].hook == HomeHook
    && stations[center].orientation == size && stations[center].settings == settings
    && forall o :: 1 <= o <= size ==> HasOrientation(stations, o)
  }

  lemma LookupIsABoard(table: Table, i: nat, size: nat, home: Network, dst: U32)
    requires HomeRouteAt(table, i, size, home)
    ensures 1 <= Lookup(table, dst) <= size && (Contains(home, dst) ==> Lookup(table, dst) == size)
  {
    var j := FirstMatch(table.entries, dst);
    if j < |table.entries| && j != i { assert EntryOk(table.entries[j], size, home); }
  }

  lemma TableDelivers(table: Table, i: nat, size: nat, home: Network, stations: seq<Station>, center: nat, dst: U32)
      returns (target: nat)
    requires HomeRouteAt(table, i, size, home) && StationsOf(stations, center, size, home)
        && OffLinks(stations, center, dst)
    ensures target < |stations| && stations[target].orientation == Lookup(table, dst)
    ensures DeliversTo(stations, table, dst, target) && (Contains(home, dst) ==> target == center)
  {
    LookupIsABoard(table, i, size, home, dst);
    assert HasOrientation(stations, Lookup(table, dst));
    target :| 0 <= target < |stations| && stations[target].orientation == Lookup(table, dst);
    forall j | 0 <= j < |table.entries| && j != i
      ensures table.entries[j].value != size
              && (Disjoint(table.entries[j].key, home) || table.entries[j].key.mask < home.mask)
    {
      assert EntryOk(table.entries[j], size, home);
    }
    HomeCenterAgrees(stations[center], table, i, dst);
    DeliveredExactlyIfCenterAgrees(stations, center, table, dst, target);
  }

  lemma RestingCenter(n: Node, net: Network)
    requires AllOk(n) && ProvisioningOk(n) && AtRest(n) && n.calm && !n.panicked
    requires n.provisioners != [] && n.provisioners[0].1 == net
    ensures var center := n.boards[Center(n)].local;
            center.settings == GetNodeSubnet(net, |n.boards|) && center.role.Home? && center.role.isProvisioned
  {
    RestingBoard(n, Center(n));
  }

  lemma RestingHomeTable(n: Node, net: Network, home: Network) returns (i: nat)
    requires HomeOk(n, home) && AtRest(n) && !n.panicked && home == GetNodeSubnet(net, |n.boards|)
    requires Aligned(net) && Len(net) <= MAX_PARENT && n.provisioners != [] && n.provisioners[0].1 == net
    requires |n.boards[0].table.entries| < MAX_ENTRIES
    ensures n.boards[Center(n)].local.settings == home
    ensures HomeRouteAt(n.boards[0].table, i, |n.boards|, home)
  {
    BoardOnLog(n, 0);
    RestingCenter(n, net);
    HomeIsItself(net, |n.boards|);
    LogHasHomeAndGateway(n, home);
    i := TableOfLog(n.log, n.boards[Center(n)].local, |n.boards|, home, n.boards[0].table);
  }

  /** A home node at rest, provisioned after connects and handshakes only, whose peers announced harmless networks and
      whose table has room left: a packet for an address on no link leaves by Wi-Fi at the board that the table names,
      from wherever it starts and whatever the order of the boards; for an address of the home's subnet that board is
      the center. */
  lemma HomeNodeDelivers(size: nat, steps: seq<Step>, net: Network, stations: seq<Station>, center: nat, dst: U32)
      returns (target: nat)
    requires 2 <= size <= 7 && IsRun(Start(size, Home(false)), steps) && Aligned(net) && Len(net) <= MAX_PARENT
    requires HarmlessRun(steps, GetNodeSubnet(net, size))
    requires var n := After(Start(size, Home(false)), steps);
             && AtRest(n) && !n.panicked && |n.boards| == size && n.provisioners != [] && n.provisioners[0].1 == net
             && |n.boards[0].table.entries| < MAX_ENTRIES
             && StationsOf(stations, center, size, n.boards[Center(n)].local.settings)
             && OffLinks(stations, center, dst)
    ensures var table := After(Start(size, Home(false)), steps).boards[0].table;
            && target < |stations| && stations[target].orientation == Lookup(table, dst)
            && DeliversTo(stations, table, dst, target)
            && (Contains(GetNodeSubnet(net, size), dst) ==> target == center)
  {
    var start, home := Start(size, Home(false)), GetNodeSubnet(net, size);
    var n := After(start, steps);
    StartIsAllOk(size, Home(false));
    StartIsProvisioningOk(size);
    StartSourcesOk(size, home);
    RunKeepsHome(start, steps, home);
    var i := RestingHomeTable(n, net, home);
    target := TableDelivers(n.boards[0].table, i, size, home, stations, center, dst);
  }

  /** A peer without a network that connects to a provisioned board announces (0,0), and so takes over the node's
      default gateway. */
  lemma UnprovisionedPeerTakesTheGateway(l: Local, orientation: U8, provided: Network, dtr: U32, table: Table)
    requires l.role.Forwarder? && !LacksNetwork(l)
    ensures var o := HandlePeer(l, orientation, Handshake(NONE, provided, dtr));
            && o.local == l && o.actions == [Edit(AddRoute(NONE, orientation))]
            && Apply(table, o.actions[0].op) == Table(orientation, table.entries)
  {}
}
