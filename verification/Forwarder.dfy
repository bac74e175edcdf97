/** The forwarder's handlers as peer.c, sibling.c and forwarder.c write them, each proved to do what Roles.dfy says of
    its event; and the operations of utils.c that they share with the center's handlers. */
module Forwarders {
  import opened Bits
  import opened Networks
  import opened Roles
  import opened RoutingTables

  /** The table after the edits among some actions. */
  function Edited(t: Table, actions: seq<Action>): Table {
    if actions == [] then t
    else
      var before := Edited(t, actions[..|actions| - 1]);
      if actions[|actions| - 1].Edit? then Apply(before, actions[|actions| - 1].op) else before
  }

  /** What handlers act on beyond their own state: the routing table, and messages to siblings and peer. */
  class Dependencies {
    const table: RoutingTable
    ghost const base: Table
    var actions: seq<Action>

    /** The table is what the edits have made of it. */
    ghost predicate Valid()
      reads this, table, table.entries
    {
      table.Valid() && table.Contents() == Edited(base, actions)
    }

    constructor (gateway: U8)
      ensures Valid() && base == Init(gateway) && actions == [] && fresh(table) && fresh(table.entries)
    {
      table := new RoutingTable(gateway);
      base := Init(gateway);
      actions := [];
    }

    lemma OneMore(before: seq<Action>, action: Action)
      ensures Edited(base, before + [action])
              == if action.Edit? then Apply(Edited(base, before), action.op) else Edited(base, before)
    {
      assert (before + [action])[..|before|] == before;
    }

    /** add_global_route */
    method AddGlobalRoute(net: Network, output: U8)
      requires Valid()
      modifies this, table, table.entries
      ensures Valid() && actions == old(actions) + [Edit(AddRoute(net, output))]
    {
      OneMore(actions, Edit(AddRoute(net, output)));
      table.AddRoute(net, output);
      actions := actions + [Edit(AddRoute(net, output))];
    }

    /** remove_routes_by_output */
    method RemoveRoutesByOutput(output: U8)
      requires Valid()
      modifies this, table, table.entries
      ensures Valid() && actions == old(actions) + [Edit(RemoveRoutes(output))]
    {
      OneMore(actions, Edit(RemoveRoutes(output)));
      table.RemoveByOutput(output);
      actions := actions + [Edit(RemoveRoutes(output))];
    }

    method Note(action: Action)
      requires Valid() && !action.Edit?
      modifies this`actions
      ensures Valid() && actions == old(actions) + [action]
    {
      OneMore(actions, action);
      actions := actions + [action];
    }

    /** rs_broadcast of a routing event. */
    method Broadcast(ev: SiblEvent)
      requires Valid()
      modifies this`actions
      ensures Valid() && actions == old(actions) + [Tell(ev)]
    {
      Note(Tell(ev));
    }

    /** wl_send_peer_message */
    method SendPeerMessage(message: PeerEvent)
      requires Valid()
      modifies this`actions
      ensures Valid() && actions == old(actions) + [ToPeer(message)]
    {
      Note(ToPeer(message));
    }
  }

  /** find_free_spot: the index of the first free slot, or the length. */
  method FindFreeSpot(networks: array<Network>) returns (spot: nat)
    ensures spot == FreeSpot(networks[..])
  {
    spot := 0;
    while spot < networks.Length && networks[spot].addr != 0
      invariant spot <= networks.Length
      invariant forall j :: 0 <= j < spot ==> networks[j].addr != 0
    {
      spot := spot + 1;
    }
    FreeSpotIs(networks[..], spot);
  }

  class ForwarderCore {
    const orientation: U8
    const deps: Dependencies
    var nodeNetwork: Network
    var deviceNetwork: Network
    var isLocalRoot: bool
    var connected: bool
    var globalState: GlobalState
    var dtr: U32
    var settings: Network       // of node.c, set by node_set_network_settings and by enabling the access point

    function State(): ForwarderState
      reads this
    {
      ForwarderState(nodeNetwork, deviceNetwork, isLocalRoot, connected, globalState, dtr)
    }

    function LocalState(): Local
      reads this
    {
      Local(Forwarder(State()), settings)
    }

    /** A handler had this outcome: the new state, and its actions in order. */
    predicate Did(o: Outcome, before: seq<Action>)
      reads this, deps
    {
      LocalState() == o.local && deps.actions == before + o.actions
    }

    /** create_forwarder_core */
    constructor (orientation: U8, deps: Dependencies)
      ensures this.orientation == orientation && this.deps == deps
      ensures LocalState() == Local(Forwarder(FORWARDER_START), UNSET)
    {
      this.orientation, this.deps := orientation, deps;
      globalState, connected := WithoutNetwork, false;
      nodeNetwork, deviceNetwork := NONE, NONE;
      isLocalRoot, dtr := false, 0;
      settings := UNSET;
    }

    // ---------- peer events ----------

    method OnPeerConnected()
      requires deps.Valid()
      modifies this, deps`actions
      ensures deps.Valid() && Did(HandlePeer(old(LocalState()), orientation, Connected), old(deps.actions))
    {
      connected := true;
      deps.SendPeerMessage(Handshake(nodeNetwork, deviceNetwork, dtr));
    }

    method OnPeerHandshake(external: Network, provided: Network, dtr: U32)
      requires deps.Valid()
      modifies this, deps, deps.table, deps.table.entries
      ensures deps.Valid()
      ensures Did(HandlePeer(old(LocalState()), orientation, Handshake(external, provided, dtr)), old(deps.actions))
    {
      if globalState == WithoutNetwork {
        this.dtr := dtr;
        deviceNetwork := GetNodeSubnet(provided, orientation);
        nodeNetwork := provided;
        globalState := WithNetwork;
        isLocalRoot := true;
        settings := deviceNetwork;
        deps.AddGlobalRoute(NONE, orientation);
        deps.Broadcast(Provision(orientation, Plus(this.dtr, 1) % TWO16, nodeNetwork));
      } else {
        deps.AddGlobalRoute(external, orientation);
      }
    }

    method OnPeerUpdateDtr(peerDtr: U32)
      requires deps.Valid()
      modifies this, deps, deps.table, deps.table.entries
      ensures deps.Valid() && Did(HandlePeer(old(LocalState()), orientation, PeerDtr(peerDtr)), old(deps.actions))
    {
      if peerDtr == 0 { return; }
      if dtr == 0 || Plus(peerDtr, 1) < dtr {
        dtr := Plus(peerDtr, 1);
        isLocalRoot := true;
        deps.AddGlobalRoute(NONE, orientation);
        deps.Broadcast(UpdateDtr(Plus(peerDtr, 1)));
      }
    }

    /** The loop of on_new_gateway_request: it tests the first slot in every round. */
    method AddHagRoutes(hags: PathList)
      requires deps.Valid()
      modifies deps, deps.table, deps.table.entries
      ensures deps.Valid()
      ensures deps.actions == old(deps.actions)
                              + HagEdits(hags, orientation, if hags[0].addr == 0 then 0 else PATH_CAPACITY)
    {
      for i := 0 to PATH_CAPACITY
        invariant deps.Valid()
        invariant hags[0].addr == 0 ==> i == 0
        invariant deps.actions == old(deps.actions) + HagEdits(hags, orientation, i)
      {
        if hags[0].addr == 0 { break; }
        deps.AddGlobalRoute(hags[i], orientation);
      }
    }

    /** A request is repeated to the siblings, and the distance to the gateway is forgotten. */
    method AskSiblings(path: PathList)
      requires deps.Valid()
      modifies this`globalState, this`dtr, deps`actions
      ensures deps.Valid() && deps.actions == old(deps.actions) + [Tell(SendGatewayRequest(path))]
      ensures State() == old(State()).(global := OnGatewayRequest, dtr := 0)
    {
      globalState := OnGatewayRequest;
      dtr := 0;
      deps.Broadcast(SendGatewayRequest(path));
    }

    method OnPeerNewGatewayRequest(hags: PathList)
      requires deps.Valid()
      modifies this, deps, deps.table, deps.table.entries
      ensures deps.Valid() && Did(HandlePeer(old(LocalState()), orientation, GatewayRequest(hags)), old(deps.actions))
    {
      AddHagRoutes(hags);
      if dtr == 1 {
        deps.Broadcast(SendGatewayRequest(hags));
        return;
      }
      if globalState == OnGatewayRequest { return; }
      AskSiblings(hags);
    }

    /** A response is taken: this board leads to the gateway, one further than the peer. */
    method TakeGateway(peerDtr: U32)
      requires deps.Valid()
      modifies this`globalState, this`isLocalRoot, this`dtr, deps, deps.table, deps.table.entries
      ensures deps.Valid() && deps.actions == old(deps.actions) + [Edit(AddRoute(NONE, orientation))]
      ensures State() == old(State()).(global := WithNetwork, isLocalRoot := true, dtr := Plus(peerDtr, 1))
    {
      globalState := WithNetwork;
      isLocalRoot := true;
      dtr := Plus(peerDtr, 1);
      deps.AddGlobalRoute(NONE, orientation);
    }

    method OnPeerNewGatewayResponse(responder: Network, peerDtr: U32)
      requires deps.Valid()
      modifies this, deps, deps.table, deps.table.entries
      ensures deps.Valid()
      ensures Did(HandlePeer(old(LocalState()), orientation, GatewayResponse(responder, peerDtr)), old(deps.actions))
    {
      if dtr != 0 && dtr <= peerDtr { return; }
      TakeGateway(peerDtr);
      deps.Broadcast(GatewayWinner(responder, dtr));
    }

    /** What a lost local root does beyond dropping its routes. */
    method AskForGateway()
      requires deps.Valid()
      modifies this, deps`actions
      ensures deps.Valid() && settings == old(settings)
      ensures deps.actions == old(deps.actions) + [Tell(SendGatewayRequest(NO_PATH))]
      ensures State() == old(State()).(isLocalRoot := false, global := OnGatewayRequest, dtr := 0)
    {
      isLocalRoot := false;
      AskSiblings(NO_PATH);
    }

    method OnPeerLost()
      requires deps.Valid()
      modifies this, deps, deps.table, deps.table.entries
      ensures deps.Valid() && Did(HandlePeer(old(LocalState()), orientation, Lost), old(deps.actions))
    {
      connected := false;
      deps.RemoveRoutesByOutput(orientation);
      if isLocalRoot { AskForGateway(); }
    }

    // ---------- sibling events ----------

    method OnSiblUpdateDtr(peerDtr: U32)
      requires deps.Valid()
      modifies this, deps`actions
      ensures deps.Valid() && Did(HandleSibling(old(LocalState()), orientation, UpdateDtr(peerDtr)), old(deps.actions))
    {
      if peerDtr == 0 {
      } else if dtr == 0 || peerDtr < dtr {
        dtr := peerDtr;
        isLocalRoot := false;
        if connected { deps.SendPeerMessage(PeerDtr(dtr)); }
      }
    }

    method OnSiblProvision(providerId: U16, provisionDtr: U16, network: Network)
      requires deps.Valid()
      modifies this, deps`actions
      ensures deps.Valid()
      ensures Did(HandleSibling(old(LocalState()), orientation, Provision(providerId, provisionDtr, network)),
                  old(deps.actions))
    {
      if globalState == WithNetwork { return; }
      dtr := provisionDtr;
      deviceNetwork := GetNodeSubnet(network, orientation);
      nodeNetwork := network;
      globalState := WithNetwork;
      isLocalRoot := false;
      settings := deviceNetwork;
    }

    /** The list in an array of its own, with this node's network in its first free slot. */
    method Extended(path: PathList) returns (spot: nat, hags: PathList)
      ensures spot == FreeSpot(path)
      ensures spot < PATH_CAPACITY ==> hags == path[spot := nodeNetwork]
    {
      var slots := new Network[PATH_CAPACITY](i requires 0 <= i < PATH_CAPACITY => path[i]);
      assert slots[..] == path;
      spot := FindFreeSpot(slots);
      if spot < PATH_CAPACITY { slots[spot] := nodeNetwork; }
      hags := slots[..];
    }

    method OnSiblSendNewGatewayRequest(path: PathList)
      requires deps.Valid()
      modifies this, deps`actions
      ensures deps.Valid()
      ensures Did(HandleSibling(old(LocalState()), orientation, SendGatewayRequest(path)), old(deps.actions))
    {
      if dtr == 1 { return; }
      if globalState == OnGatewayRequest { return; }
      if !connected { return; }
      var spot, hags := Extended(path);
      if spot == PATH_CAPACITY { return; }
      globalState := OnGatewayRequest;
      dtr := 0;
      deps.SendPeerMessage(GatewayRequest(hags));
    }

    method OnSiblNewGatewayWinner(winner: Network, winnerDtr: U32)
      requires deps.Valid()
      modifies this, deps`actions
      ensures deps.Valid()
      ensures Did(HandleSibling(old(LocalState()), orientation, GatewayWinner(winner, winnerDtr)), old(deps.actions))
    {
      if dtr == 1 {
        deps.SendPeerMessage(GatewayResponse(nodeNetwork, dtr));
        return;
      }
      globalState := WithNetwork;
      isLocalRoot := false;
      dtr := Plus(winnerDtr, 1);
      deps.SendPeerMessage(GatewayResponse(nodeNetwork, dtr));
    }
  }
}
