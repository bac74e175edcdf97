/** sync_t of one device, leader or follower, as leader.c, follower.c and sync.c update it; and that the node's token
    steps are what these methods do. */
module SyncDevices {
  import opened Bits
  import opened Fifo
  import opened NodeSystem
  import opened Sync

  /** What a device does beyond its own fields: run a registered critical section, broadcast to the siblings. */
  datatype Effect =
    | Ran(cs: ComponentId)
    | Sent(msg: SyncMsg)

  // ---------- sync_msg_t ----------

  const REQUEST_KIND: U8 := 1
  const GRANT_KIND: U8 := 2
  const MESSAGE_SIZE: nat := 3

  /** The kind and then the union, whose grant holds the destination before the component. */
  function Encode(msg: SyncMsg): seq<U8> {
    match msg
    case Request(cs) => [REQUEST_KIND, cs, 0]
    case Grant(cs, destination) => [GRANT_KIND, destination, cs]
  }

  datatype Decoded = WrongLength | UnknownKind | Message(msg: SyncMsg)

  /** The component that a message names is a valid one: on_sibling_message does not check it. */
  predicate NamesComponent(raw: seq<U8>) {
    && (|raw| == MESSAGE_SIZE && raw[0] == GRANT_KIND ==> raw[2] < COMPONENTS)
    && (|raw| == MESSAGE_SIZE && raw[0] == REQUEST_KIND ==> raw[1] < COMPONENTS)
  }

  function Decode(raw: seq<U8>): Decoded
    requires NamesComponent(raw)
  {
    if |raw| != MESSAGE_SIZE then WrongLength
    else if raw[0] == GRANT_KIND then Message(Grant(raw[2], raw[1]))
    else if raw[0] == REQUEST_KIND then Message(Request(raw[1]))
    else UnknownKind
  }

  lemma DecodeInvertsEncode(msg: SyncMsg)
    ensures NamesComponent(Encode(msg)) && Decode(Encode(msg)) == Message(msg)
  {}

  // ---------- what a message does to a device ----------

  /** The fields that the reaction depends on. */
  datatype Device = Device(orientation: U8, devices: U8, isLeader: bool, registered: seq<bool>, slots: seq<Slot>)

  predicate DeviceOk(d: Device) {
    && 0 < d.devices < 0xFF && |d.registered| == |d.slots| == COMPONENTS
    && forall cs: ComponentId :: d.slots[cs].pending <= MAX_PENDING
  }

  function Issued(cs: ComponentId, issue: bool): seq<Effect> {
    if issue then [Sent(Grant(cs, FIRST))] else []
  }

  /** sync_request_critical_section */
  function Requesting(d: Device, cs: ComponentId): (seq<Slot>, seq<Effect>)
    requires DeviceOk(d)
  {
    if d.isLeader then
      var (slot, issue) := OnRequest(d.slots[cs]);
      (d.slots[cs := slot], Issued(cs, issue))
    else
      (d.slots, [Sent(Request(cs))])
  }

  /** on_token_grant for the device itself. */
  function Granted(d: Device, cs: ComponentId): (seq<Slot>, seq<Effect>)
    requires DeviceOk(d)
  {
    var ran := if d.registered[cs] then [Ran(cs)] else [];
    if d.isLeader then
      var (slot, issue) := OnRoundEnd(d.slots[cs]);
      (d.slots[cs := slot], ran + Issued(cs, issue))
    else
      (d.slots, ran + [Sent(Grant(cs, NextDevice(d.orientation, d.devices)))])
  }

  function Reaction(d: Device, msg: SyncMsg): (seq<Slot>, seq<Effect>)
    requires DeviceOk(d)
  {
    match msg
    case Grant(cs, destination) => if destination == d.orientation then Granted(d, cs) else (d.slots, [])
    case Request(cs) => if d.isLeader then Requesting(d, cs) else (d.slots, [])
  }

  // ---------- the device as written ----------

  class SyncDevice {
    const orientation: U8
    const devices: U8
    const isLeader: bool
    const firstDevice: U8
    const tokenOut: array<bool>
    const requested: array<U8>
    const registered: array<bool>
    const inside: array<bool>
    var effects: seq<Effect>

    predicate Valid()
      reads this, inside
    {
      && 0 < devices < 0xFF && firstDevice == FIRST
      && tokenOut.Length == requested.Length == registered.Length == inside.Length == COMPONENTS
      && tokenOut != registered && tokenOut != inside && registered != inside
      && forall cs :: 0 <= cs < COMPONENTS ==> !inside[cs]
    }

    function Slots(): (r: seq<Slot>)
      requires tokenOut.Length == requested.Length == COMPONENTS
      reads tokenOut, requested
      ensures |r| == COMPONENTS
      ensures forall cs: ComponentId :: r[cs] == Slot(tokenOut[cs], requested[cs])
    {
      seq(COMPONENTS, cs requires 0 <= cs < COMPONENTS reads tokenOut, requested => Slot(tokenOut[cs], requested[cs]))
    }

    function State(): Device
      requires tokenOut.Length == requested.Length == COMPONENTS
      reads this, tokenOut, requested, registered
    {
      Device(orientation, devices, isLeader, registered[..], Slots())
    }

    /** sync_init: the device of the center is the leader. */
    constructor (orientation: U8, devices: U8, center: U8)
      requires 0 < devices < 0xFF
      ensures Valid() && this.orientation == orientation && this.devices == devices
      ensures isLeader == (orientation == center) && effects == []
      ensures forall cs: ComponentId :: Slots()[cs] == EMPTY_SLOT && !registered[cs]
      ensures fresh(tokenOut) && fresh(requested) && fresh(registered) && fresh(inside)
    {
      this.orientation, this.devices, isLeader, firstDevice := orientation, devices, orientation == center, FIRST;
      tokenOut := new bool[COMPONENTS](_ => false);
      requested := new U8[COMPONENTS](_ => 0);
      registered := new bool[COMPONENTS](_ => false);
      inside := new bool[COMPONENTS](_ => false);
      effects := [];
    }

    method RegisterCriticalSection(cs: ComponentId)
      requires Valid()
      modifies registered
      ensures Valid() && registered[..] == old(registered[..])[cs := true]
    {
      registered[cs] := true;
    }

    /** sync_is_inside_critical_section */
    function IsInside(cs: ComponentId): bool
      requires inside.Length == COMPONENTS
      reads inside
    {
      inside[cs]
    }

    method Broadcast(msg: SyncMsg)
      modifies this`effects
      ensures effects == old(effects) + [Sent(msg)]
    {
      effects := effects + [Sent(msg)];
    }

    /** The registered callback, which runs with the inside flag set. */
    method RunCallback(cs: ComponentId)
      requires inside.Length == COMPONENTS && IsInside(cs)
      modifies this`effects
      ensures effects == old(effects) + [Ran(cs)]
    {
      effects := effects + [Ran(cs)];
    }

    method RunCriticalSection(cs: ComponentId)
      requires Valid()
      modifies this`effects, inside
      ensures Valid() && effects == old(effects) + if registered[cs] then [Ran(cs)] else []
    {
      if registered[cs] {
        inside[cs] := true;
        RunCallback(cs);
        inside[cs] := false;
      }
    }

    /** issue_new_token */
    method IssueNewToken(cs: ComponentId)
      requires Valid()
      modifies this`effects, tokenOut
      ensures Valid() && tokenOut[..] == old(tokenOut[..])[cs := true]
      ensures effects == old(effects) + Issued(cs, true)
    {
      tokenOut[cs] := true;
      Broadcast(Grant(cs, firstDevice));
    }

    /** request_critical_section of either role. */
    method RequestCriticalSection(cs: ComponentId)
      requires Valid()
      modifies this`effects, tokenOut, requested
      ensures Valid()
      ensures Slots() == Requesting(old(State()), cs).0
      ensures effects == old(effects) + Requesting(old(State()), cs).1
    {
      if !isLeader {
        Broadcast(Request(cs));
      } else if tokenOut[cs] {
        if requested[cs] < 255 {
          requested[cs] := requested[cs] + 1;
        }
      } else {
        IssueNewToken(cs);
      }
    }

    /** on_token_grant of either role. */
    method OnTokenGrant(cs: ComponentId, destination: U8)
      requires Valid()
      modifies this`effects, tokenOut, requested, inside
      ensures Valid()
      ensures Slots() == Reaction(old(State()), Grant(cs, destination)).0
      ensures effects == old(effects) + Reaction(old(State()), Grant(cs, destination)).1
    {
      if destination != orientation { return; }
      RunCriticalSection(cs);
      if !isLeader {
        Broadcast(Grant(cs, orientation % devices + 1));
      } else if requested[cs] > 0 {
        requested[cs] := requested[cs] - 1;
        IssueNewToken(cs);
      } else {
        tokenOut[cs] := false;
      }
    }

    /** on_sibling_message: a message of the wrong length or of unknown kind changes nothing. A follower has no
        handler for requests. */
    method OnSiblingMessage(raw: seq<U8>)
      requires Valid() && NamesComponent(raw)
      modifies this`effects, tokenOut, requested, inside
      ensures Valid()
      ensures Decode(raw).Message? ==>
                var (slots, done) := Reaction(old(State()), Decode(raw).msg);
                Slots() == slots && effects == old(effects) + done
      ensures !Decode(raw).Message? ==> Slots() == old(Slots()) && effects == old(effects)
    {
      if |raw| != MESSAGE_SIZE { return; }
      if raw[0] == GRANT_KIND {
        OnTokenGrant(raw[2], raw[1]);
      } else if raw[0] == REQUEST_KIND {
        if isLeader { RequestCriticalSection(raw[1]); }
      }
    }
  }

  // ---------- the node's token steps are these reactions ----------

  function SlotsOf(n: Node): (r: seq<Slot>)
    requires Shape(n)
    ensures |r| == COMPONENTS && forall cs: ComponentId :: r[cs] == n.components[cs].slot
  {
    seq(COMPONENTS, cs requires 0 <= cs < COMPONENTS => n.components[cs].slot)
  }

  /** Board `b` of the node as a sync device. The node keeps the leader's slots once. */
  function DeviceOf(n: Node, b: nat, registered: seq<bool>): Device
    requires Shape(n) && b < |n.boards|
  {
    Device(Orientation(b), |n.boards|, b == Center(n), registered, SlotsOf(n))
  }

  /** The inboxes after board `src` has broadcast what its effects send. */
  function SentAll(inbox: seq<seq<Msg>>, src: nat, effects: seq<Effect>): seq<seq<Msg>>
    decreases |effects|
  {
    if effects == [] then inbox
    else
      var next := if effects[0].Sent? then Fifo.Broadcast(inbox, src, Token(effects[0].msg)) else inbox;
      SentAll(next, src, effects[1..])
  }

  lemma SentOne(inbox: seq<seq<Msg>>, src: nat, msg: SyncMsg)
    ensures SentAll(inbox, src, [Sent(msg)]) == Fifo.Broadcast(inbox, src, Token(msg))
    ensures SentAll(inbox, src, []) == inbox
  {
    assert [Sent(msg)][1..] == [];
  }

  /** A board's request in the node is the device's request: the same slots, the same messages. */
  lemma RequestIsDeviceRequest(n: Node, b: nat, cs: ComponentId, registered: seq<bool>)
    requires Shape(n) && b < |n.boards| && DeviceOk(DeviceOf(n, b, registered))
    ensures var (slots, effects) := Requesting(DeviceOf(n, b, registered), cs);
            SlotsOf(RequestBy(n, b, cs)) == slots && RequestBy(n, b, cs).inbox == SentAll(n.inbox, b, effects)
  {
    SentOne(n.inbox, b, Request(cs));
    SentOne(n.inbox, b, Grant(cs, FIRST));
  }

  lemma RoundEndIsDeviceGrant(n: Node, cs: ComponentId, registered: seq<bool>)
    requires Shape(n) && DeviceOk(DeviceOf(n, Center(n), registered))
    ensures var (slots, effects) := Granted(DeviceOf(n, Center(n), registered), cs);
            SlotsOf(EndRound(n, cs)) == slots && EndRound(n, cs).inbox == SentAll(n.inbox, Center(n), effects)
  {
    SentOne(n.inbox, Center(n), Grant(cs, FIRST));
    RunningSendsNothing(n.inbox, Center(n), cs, Issued(cs, OnRoundEnd(n.components[cs].slot).1));
  }

  lemma PassingIsDeviceGrant(n: Node, b: nat, cs: ComponentId, registered: seq<bool>)
    requires Shape(n) && b < Center(n) && DeviceOk(DeviceOf(n, b, registered))
    ensures var (slots, effects) := Granted(DeviceOf(n, b, registered), cs);
            SlotsOf(PassOn(n, b, cs)) == slots && PassOn(n, b, cs).inbox == SentAll(n.inbox, b, effects)
  {
    var next := Grant(cs, NextDevice(Orientation(b), |n.boards|));
    SentOne(n.inbox, b, next);
    RunningSendsNothing(n.inbox, b, cs, [Sent(next)]);
  }

  /** Passing the token on in the node is what the device does after its critical section. */
  lemma PassOnIsDeviceGrant(n: Node, b: nat, cs: ComponentId, registered: seq<bool>)
    requires Shape(n) && b < |n.boards| && DeviceOk(DeviceOf(n, b, registered))
    ensures var (slots, effects) := Reaction(DeviceOf(n, b, registered), Grant(cs, Orientation(b)));
            SlotsOf(PassOn(n, b, cs)) == slots && PassOn(n, b, cs).inbox == SentAll(n.inbox, b, effects)
  {
    if b == Center(n) { RoundEndIsDeviceGrant(n, cs, registered); } else { PassingIsDeviceGrant(n, b, cs, registered); }
  }

  lemma RunningSendsNothing(inbox: seq<seq<Msg>>, src: nat, cs: ComponentId, rest: seq<Effect>)
    ensures SentAll(inbox, src, [Ran(cs)] + rest) == SentAll(inbox, src, rest)
  {
    assert ([Ran(cs)] + rest)[1..] == rest;
  }
}
