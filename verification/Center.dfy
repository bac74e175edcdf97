/** The center's handlers as home.c and root.c write them, and the root's gateway timer: over any interleaving of
    requests and ticks it fires exactly when it should. */
module Centers {
  import opened Bits
  import opened Forwarders
  import opened Networks
  import opened Roles

  class HomeCore {
    const orientation: U8
    const deps: Dependencies
    var isProvisioned: bool
    var settings: Network

    function LocalState(): Local
      reads this
    {
      Local(Home(isProvisioned), settings)
    }

    predicate Did(o: Outcome, before: seq<Action>)
      reads this, deps
    {
      LocalState() == o.local && deps.actions == before + o.actions
    }

    /** create_home_core */
    constructor (orientation: U8, deps: Dependencies)
      ensures this.orientation == orientation && this.deps == deps && LocalState() == Local(Home(false), UNSET)
    {
      this.orientation, this.deps := orientation, deps;
      isProvisioned, settings := false, UNSET;
    }

    method OnStart()
      requires deps.Valid()
      modifies deps`actions
      ensures deps.Valid() && Did(HandleSibling(old(LocalState()), orientation, SiblEvent.OnStart), old(deps.actions))
    {
      deps.Note(Refresh);
    }

    method OnSiblProvision(providerId: U16, provisionDtr: U16, network: Network)
      requires deps.Valid()
      modifies this, deps, deps.table, deps.table.entries
      ensures deps.Valid()
      ensures Did(HandleSibling(old(LocalState()), orientation, Provision(providerId, provisionDtr, network)),
                  old(deps.actions))
    {
      if isProvisioned { return; }
      var subnet := GetNodeSubnet(network, orientation);
      deps.AddGlobalRoute(subnet, orientation);
      settings := subnet;
      isProvisioned := true;
    }
  }

  class RootCore {
    const orientation: U8
    const deps: Dependencies
    var network: Network
    var gatewayRequested: bool
    var timeout: U32
    var settings: Network

    function State(): RootState
      reads this
    {
      RootState(network, gatewayRequested, timeout)
    }

    function LocalState(): Local
      reads this
    {
      Local(Root(State()), settings)
    }

    predicate Did(o: Outcome, before: seq<Action>)
      reads this, deps
    {
      LocalState() == o.local && deps.actions == before + o.actions
    }

    /** create_root_core */
    constructor (orientation: U8, deps: Dependencies, network: Network)
      ensures this.orientation == orientation && this.deps == deps && State() == RootState(network, false, 0)
    {
      this.orientation, this.deps, this.network := orientation, deps, network;
      gatewayRequested, timeout := false, 0;
      settings := UNSET;
    }

    method OnStart()
      requires deps.Valid()
      modifies deps, deps.table, deps.table.entries
      ensures deps.Valid() && Did(HandleSibling(old(LocalState()), orientation, SiblEvent.OnStart), old(deps.actions))
    {
      deps.AddGlobalRoute(NONE, orientation);
      deps.Broadcast(Provision(orientation, 1, network));
    }

    method OnSiblSendNewGatewayRequest(path: PathList)
      modifies this
      ensures Did(HandleSibling(old(LocalState()), orientation, SendGatewayRequest(path)), old(deps.actions))
    {
      gatewayRequested := true;
      timeout := GATEWAY_TIMEOUT;
    }

    /** on_tick: a subtraction that would go below zero does not happen. */
    method OnTick(dt: U32)
      requires deps.Valid()
      modifies this, deps`actions
      ensures deps.Valid() && State() == Tick(old(State()), dt).0 && settings == old(settings)
      ensures deps.actions == old(deps.actions)
                              + if Tick(old(State()), dt).1 then [Tell(GatewayWinner(network, 1))] else []
    {
      if !gatewayRequested { return; }
      if dt >= timeout {
        gatewayRequested := false;
        timeout := 0;
        deps.Broadcast(GatewayWinner(network, 1));
      } else {
        timeout := timeout - dt;
      }
    }
  }

  // ---------- the gateway timer ----------

  datatype TimerEvent =
    | Requested           // on_new_gateway_request
    | Ticked(dt: U32)     // on_tick

  function TimerStep(r: RootState, ev: TimerEvent): RootState {
    match ev
    case Requested => r.(gatewayRequested := true, timeout := GATEWAY_TIMEOUT)
    case Ticked(dt) => Tick(r, dt).0
  }

  function TimerAfter(r: RootState, events: seq<TimerEvent>): RootState {
    if events == [] then r else TimerStep(TimerAfter(r, events[..|events| - 1]), events[|events| - 1])
  }

  /** The i-th event makes the timer fire. */
  predicate Fires(r: RootState, events: seq<TimerEvent>, i: nat)
    requires i < |events|
  {
    events[i].Ticked? && Tick(TimerAfter(r, events[..i]), events[i].dt).1
  }

  datatype Age = Never | Passed(ms: nat)

  /** The time that has passed since the latest request. */
  function SinceRequest(events: seq<TimerEvent>): Age {
    if events == [] then Never
    else
      match events[|events| - 1]
      case Requested => Passed(0)
      case Ticked(dt) =>
        match SinceRequest(events[..|events| - 1])
        case Never => Never
        case Passed(ms) => Passed(ms + dt)
  }

  predicate Idle(r: RootState) {
    !r.gatewayRequested && r.timeout == 0
  }

  /** The countdown holds what is left of the ten seconds since the latest request, and stops once they have passed. */
  lemma {:induction false} TimerCountsDown(r: RootState, events: seq<TimerEvent>)
    requires Idle(r)
    ensures var after := TimerAfter(r, events);
            match SinceRequest(events)
            case Never => Idle(after)
            case Passed(ms) =>
              if ms < GATEWAY_TIMEOUT
              then after.gatewayRequested && after.timeout == GATEWAY_TIMEOUT - ms
              else Idle(after)
  {
    if events != [] { TimerCountsDown(r, events[..|events| - 1]); }
  }

  /** A winner is broadcast exactly at the first tick at which the time since the latest request reaches ten seconds. */
  lemma FiresExactlyWhenDue(r: RootState, events: seq<TimerEvent>, i: nat)
    requires Idle(r) && i < |events|
    ensures Fires(r, events, i) <==>
              && SinceRequest(events[..i]).Passed? && SinceRequest(events[..i]).ms < GATEWAY_TIMEOUT
              && events[i].Ticked? && SinceRequest(events[..i + 1]).Passed?
              && SinceRequest(events[..i + 1]).ms >= GATEWAY_TIMEOUT
  {
    TimerCountsDown(r, events[..i]);
    assert events[..i + 1][..i] == events[..i];
  }

  /** Time only adds up until the next request. */
  lemma {:induction false} AgesWithoutRequests(events: seq<TimerEvent>, i: nat, j: nat)
    requires i <= j <= |events| && forall k :: i <= k < j ==> !events[k].Requested?
    ensures SinceRequest(events[..i]).Never? ==> SinceRequest(events[..j]).Never?
    ensures SinceRequest(events[..i]).Passed? ==>
              SinceRequest(events[..j]).Passed? && SinceRequest(events[..j]).ms >= SinceRequest(events[..i]).ms
  {
    if i < j {
      AgesWithoutRequests(events, i, j - 1);
      assert events[..j][..j - 1] == events[..j - 1];
      assert events[..j][j - 1].Ticked?;
    }
  }

  /** It fires once per request window: between two firings there is a request. */
  lemma FiresOncePerWindow(r: RootState, events: seq<TimerEvent>, i: nat, j: nat)
    requires Idle(r) && i < j < |events| && Fires(r, events, i) && Fires(r, events, j)
    ensures exists k :: i < k < j && events[k].Requested?
  {
    FiresExactlyWhenDue(r, events, i);
    FiresExactlyWhenDue(r, events, j);
    if forall k :: i < k < j ==> !events[k].Requested? { AgesWithoutRequests(events, i + 1, j); }
  }
}
