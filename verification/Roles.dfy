/** The events of the routing protocol and what each role's handlers do with them, as functions: the new state and the
    actions the handler takes, in order. The classes in Forwarder.dfy and Center.dfy are the handlers as written. */
module Roles {
  import opened Bits
  import opened Networks
  import opened RoutingTables

  /** Capacity of the list of networks a gateway request carries. */
  const PATH_CAPACITY: nat := 16

  /** The zeroed list of a request that starts here. */
  const NO_PATH: seq<Network> :=
    [NONE, NONE, NONE, NONE, NONE, NONE, NONE, NONE, NONE, NONE, NONE, NONE, NONE, NONE, NONE, NONE]

  type PathList = p: seq<Network> | |p| == PATH_CAPACITY witness NO_PATH

  datatype SiblEvent =
    | OnStart
    | UpdateDtr(dtr: U32)
    | Provision(providerId: U16, provisionDtr: U16, network: Network)
    | SendGatewayRequest(path: PathList)
    | GatewayWinner(winner: Network, winnerDtr: U32)

  datatype PeerEvent =
    | Handshake(external: Network, provided: Network, handshakeDtr: U32)
    | PeerDtr(peerDtr: U32)
    | GatewayRequest(hags: PathList)
    | GatewayResponse(responder: Network, responseDtr: U32)
    | Connected
    | Lost

  datatype GlobalState = WithNetwork | WithoutNetwork | OnGatewayRequest

  /** rt_forwarder_state_t */
  datatype ForwarderState = ForwarderState(
    nodeNetwork: Network, deviceNetwork: Network, isLocalRoot: bool, connected: bool, global: GlobalState, dtr: U32)

  /** rt_root_state_t */
  datatype RootState = RootState(network: Network, gatewayRequested: bool, timeout: U32)

  datatype Role =
    | Forwarder(fwd: ForwarderState)
    | Home(isProvisioned: bool)
    | Root(root: RootState)

  /** What only this board's handlers touch: the role's state and the subnet settings of node.c. */
  datatype Local = Local(role: Role, settings: Network)

  /** An effect outside the board's own state. */
  datatype Action =
    | Edit(op: Op)             // edit the routing table, then ss_refresh
    | Refresh                  // ss_refresh alone
    | Tell(event: SiblEvent)   // rs_broadcast to the siblings
    | ToPeer(message: PeerEvent)

  datatype Outcome = Outcome(local: Local, actions: seq<Action>)

  function Plus(a: U32, b: U32): U32 {
    (a + b) % TWO32
  }

  const UNSET := Network(0, 0xFFFF_FFFF)

  /** create_forwarder_core */
  const FORWARDER_START := ForwarderState(NONE, NONE, false, false, WithoutNetwork, 0)

  // ---------- forwarder, peer events (peer.c) ----------

  function HandshakeReply(s: ForwarderState): PeerEvent {
    Handshake(s.nodeNetwork, s.deviceNetwork, s.dtr)
  }

  function OnConnected(s: ForwarderState): (ForwarderState, seq<Action>) {
    (s.(connected := true), [ToPeer(HandshakeReply(s))])
  }

  function Provisioned(s: ForwarderState, network: Network, dtr: U32, isLocalRoot: bool, orientation: U8)
    : ForwarderState
  {
    s.(dtr := dtr, deviceNetwork := GetNodeSubnet(network, orientation), nodeNetwork := network,
       global := WithNetwork, isLocalRoot := isLocalRoot)
  }

  function OnHandshake(l: Local, s: ForwarderState, orientation: U8, external: Network, provided: Network, dtr: U32)
    : Outcome
  {
    if s.global == WithoutNetwork then
      var s' := Provisioned(s, provided, dtr, true, orientation);
      Outcome(Local(Forwarder(s'), s'.deviceNetwork),
              [Edit(AddRoute(NONE, orientation)), Tell(Provision(orientation, Plus(dtr, 1) % TWO16, provided))])
    else
      Outcome(l, [Edit(AddRoute(external, orientation))])
  }

  /** The test that both DTR handlers share: no distance yet, or a smaller one offered. */
  predicate Improves(offered: U32, current: U32) {
    current == 0 || offered < current
  }

  function OnPeerDtr(s: ForwarderState, orientation: U8, dtr: U32): (ForwarderState, seq<Action>) {
    if dtr == 0 || !Improves(Plus(dtr, 1), s.dtr) then (s, [])
    else (s.(dtr := Plus(dtr, 1), isLocalRoot := true),
          [Edit(AddRoute(NONE, orientation)), Tell(UpdateDtr(Plus(dtr, 1)))])
  }

  /** The loop of on_new_gateway_request tests element 0 on every round, so it adds all sixteen slots or none. */
  function HagEdits(path: PathList, orientation: U8, n: nat): seq<Action>
    requires n <= PATH_CAPACITY
  {
    if n == 0 then [] else HagEdits(path, orientation, n - 1) + [Edit(AddRoute(path[n - 1], orientation))]
  }

  lemma {:induction false} HagEditsEditOnly(path: PathList, orientation: U8, n: nat)
    requires n <= PATH_CAPACITY
    ensures forall k :: 0 <= k < |HagEdits(path, orientation, n)| ==> HagEdits(path, orientation, n)[k].Edit?
  {
    if n > 0 { HagEditsEditOnly(path, orientation, n - 1); }
  }

  function OnGatewayRequestFromPeer(s: ForwarderState, orientation: U8, path: PathList): (ForwarderState, seq<Action>) {
    var edits := HagEdits(path, orientation, if path[0].addr == 0 then 0 else PATH_CAPACITY);
    if s.dtr == 1 then (s, edits + [Tell(SendGatewayRequest(path))])
    else if s.global == OnGatewayRequest then (s, edits)
    else (s.(global := OnGatewayRequest, dtr := 0), edits + [Tell(SendGatewayRequest(path))])
  }

  function OnGatewayResponse(s: ForwarderState, orientation: U8, responder: Network, dtr: U32)
    : (ForwarderState, seq<Action>)
  {
    if s.dtr != 0 && s.dtr <= dtr then (s, [])
    else (s.(global := WithNetwork, isLocalRoot := true, dtr := Plus(dtr, 1)),
          [Edit(AddRoute(NONE, orientation)), Tell(GatewayWinner(responder, Plus(dtr, 1)))])
  }

  function OnLost(s: ForwarderState, orientation: U8): (ForwarderState, seq<Action>) {
    var gone := s.(connected := false);
    if s.isLocalRoot then (gone.(isLocalRoot := false, dtr := 0, global := OnGatewayRequest),
                           [Edit(RemoveRoutes(orientation)), Tell(SendGatewayRequest(NO_PATH))])
    else (gone, [Edit(RemoveRoutes(orientation))])
  }

  // ---------- forwarder, sibling events (sibling.c) ----------

  function OnSiblingDtr(s: ForwarderState, dtr: U32): (ForwarderState, seq<Action>) {
    if dtr == 0 || !Improves(dtr, s.dtr) then (s, [])
    else (s.(dtr := dtr, isLocalRoot := false), if s.connected then [ToPeer(PeerDtr(dtr))] else [])
  }

  function OnProvision(l: Local, s: ForwarderState, orientation: U8, network: Network, dtr: U16): Local {
    if s.global == WithNetwork then l
    else var s' := Provisioned(s, network, dtr, false, orientation); Local(Forwarder(s'), s'.deviceNetwork)
  }

  /** find_free_spot: the first slot with a zero address, or the capacity. */
  function FreeSpot(path: seq<Network>): (i: nat)
    ensures i <= |path| && (i < |path| ==> path[i].addr == 0)
    ensures forall j :: 0 <= j < i ==> path[j].addr != 0
  {
    if path == [] || path[0].addr == 0 then 0 else 1 + FreeSpot(path[1..])
  }

  function OnSendGatewayRequest(s: ForwarderState, path: PathList): (ForwarderState, seq<Action>) {
    if s.dtr == 1 || s.global == OnGatewayRequest || !s.connected || FreeSpot(path) == PATH_CAPACITY then (s, [])
    else (s.(global := OnGatewayRequest, dtr := 0),
          [ToPeer(GatewayRequest(path[FreeSpot(path) := s.nodeNetwork]))])
  }

  function OnGatewayWinner(s: ForwarderState, dtr: U32): (ForwarderState, seq<Action>) {
    var s' := if s.dtr == 1 then s else s.(global := WithNetwork, isLocalRoot := false, dtr := Plus(dtr, 1));
    (s', [ToPeer(GatewayResponse(s'.nodeNetwork, s'.dtr))])
  }

  // ---------- home and root (home.c, root.c) ----------

  function HomeProvision(l: Local, orientation: U8, network: Network): Outcome
    requires l.role.Home?
  {
    if l.role.isProvisioned then Outcome(l, [])
    else var subnet := GetNodeSubnet(network, orientation);
         Outcome(Local(Home(true), subnet), [Edit(AddRoute(subnet, orientation))])
  }

  const GATEWAY_TIMEOUT: U32 := 10000

  function RootStart(r: RootState, orientation: U8): seq<Action> {
    [Edit(AddRoute(NONE, orientation)), Tell(Provision(orientation, 1, r.network))]
  }

  /** on_tick: the new state and whether the winner is broadcast. */
  function Tick(r: RootState, dt: U32): (RootState, bool) {
    if !r.gatewayRequested then (r, false)
    else if dt >= r.timeout then (r.(gatewayRequested := false, timeout := 0), true)
    else (r.(timeout := r.timeout - dt), false)
  }

  // ---------- the callback tables of the three roles ----------

  function WithForwarder(l: Local, r: (ForwarderState, seq<Action>)): Outcome {
    Outcome(l.(role := Forwarder(r.0)), r.1)
  }

  /** What on_critical_section does with one queued sibling event. */
  function HandleSibling(l: Local, orientation: U8, ev: SiblEvent): Outcome {
    match l.role
    case Forwarder(s) => (
      match ev
      case OnStart => Outcome(l, [])
      case UpdateDtr(dtr) => WithForwarder(l, OnSiblingDtr(s, dtr))
      case Provision(_, dtr, network) => Outcome(OnProvision(l, s, orientation, network, dtr), [])
      case SendGatewayRequest(path) => WithForwarder(l, OnSendGatewayRequest(s, path))
      case GatewayWinner(_, dtr) => WithForwarder(l, OnGatewayWinner(s, dtr)))
    case Home(_) => (
      match ev
      case OnStart => Outcome(l, [Refresh])
      case Provision(_, _, network) => HomeProvision(l, orientation, network)
      case _ => Outcome(l, []))
    case Root(r) => (
      match ev
      case OnStart => Outcome(l, RootStart(r, orientation))
      case SendGatewayRequest(_) =>
        Outcome(l.(role := Root(r.(gatewayRequested := true, timeout := GATEWAY_TIMEOUT))), [])
      case _ => Outcome(l, []))
  }

  /** What on_critical_section does with one queued peer event. Home and root register no peer handlers. */
  function HandlePeer(l: Local, orientation: U8, ev: PeerEvent): Outcome {
    match l.role
    case Forwarder(s) => (
      match ev
      case Handshake(external, provided, dtr) => OnHandshake(l, s, orientation, external, provided, dtr)
      case PeerDtr(dtr) => WithForwarder(l, OnPeerDtr(s, orientation, dtr))
      case GatewayRequest(path) => WithForwarder(l, OnGatewayRequestFromPeer(s, orientation, path))
      case GatewayResponse(responder, dtr) => WithForwarder(l, OnGatewayResponse(s, orientation, responder, dtr))
      case Connected => WithForwarder(l, OnConnected(s))
      case Lost => WithForwarder(l, OnLost(s, orientation)))
    case _ => Outcome(l, [])
  }

  // ---------- the path of a gateway request ----------

  /** A path list whose used slots come first. */
  predicate Packed(path: PathList) {
    forall j :: FreeSpot(path) <= j < PATH_CAPACITY ==> path[j] == NONE
  }

  /** The used slots of a path list. */
  function Used(path: PathList): seq<Network> {
    path[..FreeSpot(path)]
  }

  lemma {:induction false} FreeSpotIs(path: seq<Network>, i: nat)
    requires i <= |path| && (i < |path| ==> path[i].addr == 0)
    requires forall j :: 0 <= j < i ==> path[j].addr != 0
    ensures FreeSpot(path) == i
  {
    if i > 0 { FreeSpotIs(path[1..], i - 1); }
  }

  /** A forwarded request carries the received list with this node's network after its used slots; the list stays packed
      and grows by one, so it never exceeds its capacity. */
  lemma ForwardedPathGrows(s: ForwarderState, path: PathList)
    requires Packed(path) && s.nodeNetwork.addr != 0
    ensures var sent := OnSendGatewayRequest(s, path).1;
            || sent == []
            || (&& |Used(path)| < PATH_CAPACITY
                && |sent| == 1 && sent[0].ToPeer? && sent[0].message.GatewayRequest?
                && Packed(sent[0].message.hags)
                && Used(sent[0].message.hags) == Used(path) + [s.nodeNetwork])
  {
    var i := FreeSpot(path);
    if OnSendGatewayRequest(s, path).1 != [] {
      var next: PathList := path[i := s.nodeNetwork];
      FreeSpotIs(next, i + 1);
      assert next[..i + 1] == path[..i] + [s.nodeNetwork];
    }
  }

  /** Nothing returns a forwarder to the state without a network. */
  lemma NetworkIsNeverForgotten(l: Local, orientation: U8)
    requires l.role.Forwarder? && l.role.fwd.global != WithoutNetwork
    ensures forall ev :: HandleSibling(l, orientation, ev).local.role.Forwarder?
                         && HandleSibling(l, orientation, ev).local.role.fwd.global != WithoutNetwork
    ensures forall ev :: HandlePeer(l, orientation, ev).local.role.Forwarder?
                         && HandlePeer(l, orientation, ev).local.role.fwd.global != WithoutNetwork
  {}
}
