/** routing_table.c: a sorted array with first-match lookup that stands for a bounded map with longest-prefix match. */
module RoutingTables {
  import opened Associations
  import opened Bits
  import opened Networks

  const MAX_ENTRIES: nat := 16

  /** rt_routing_entry_t: network and mask are the key, the output is the value. */
  type Route = Entry<Network, U8>

  /** The used part of rt_routing_table_t. */
  datatype Table = Table(defaultGateway: U8, entries: seq<Route>)

  datatype Op =
    | AddRoute(net: Network, output: U8)
    | RemoveRoutes(output: U8)

  // ---------- what the code does ----------

  function Init(gateway: U8): Table {
    Table(gateway, [])
  }

  /** Where the loop of routing_table_add stops: at the same key, at the first smaller mask, or at the end. */
  function StopIndex(entries: seq<Route>, net: Network): (i: nat)
    ensures i <= |entries|
    ensures i < |entries| ==> entries[i].key == net || entries[i].key.mask < net.mask
    ensures forall j :: 0 <= j < i ==> entries[j].key != net && entries[j].key.mask >= net.mask
  {
    if entries == [] || entries[0].key == net || entries[0].key.mask < net.mask then 0
    else 1 + StopIndex(entries[1..], net)
  }

  function Add(t: Table, net: Network, output: U8): Table {
    if net == NONE then t.(defaultGateway := output) else
    var i := StopIndex(t.entries, net);
    if i < |t.entries| && t.entries[i].key == net then
      t.(entries := t.entries[i := Entry(net, output)])
    else if |t.entries| >= MAX_ENTRIES then t
    else t.(entries := Insert(t.entries, Entry(net, output), i))
  }

  /** The add of a new route to a full table, which panics and changes nothing. */
  predicate IsLost(t: Table, net: Network) {
    var i := StopIndex(t.entries, net);
    net != NONE && !(i < |t.entries| && t.entries[i].key == net) && |t.entries| >= MAX_ENTRIES
  }

  /** That is, exactly when the map that the table stands for is full and lacks the network. */
  lemma LostExactlyIfFull(t: Table, net: Network)
    requires WellFormed(t)
    ensures IsLost(t, net) <==> net != NONE && net !in Abstract(t).routes && |Abstract(t).routes| >= MAX_ENTRIES
  {
    var i := StopIndex(t.entries, net);
    KeysOfMap(t.entries, net);
    SizeOfMap(t.entries);
    if HasKey(t.entries, net) {
      var k :| 0 <= k < |t.entries| && t.entries[k].key == net;
      assert i <= k;
    }
  }

  function Apply(t: Table, op: Op): Table {
    match op
    case AddRoute(net, output) => Add(t, net, output)
    case RemoveRoutes(output) => t.(entries := Without(t.entries, output))
  }

  /** The table after a sequence of operations. */
  function Fold(t: Table, ops: seq<Op>): Table {
    if ops == [] then t else Apply(Fold(t, ops[..|ops| - 1]), ops[|ops| - 1])
  }

  /** The index of the first matching entry, or the number of entries. */
  function FirstMatch(entries: seq<Route>, ip: U32): (i: nat)
    ensures i <= |entries| && (i < |entries| ==> Contains(entries[i].key, ip))
    ensures forall j :: 0 <= j < i ==> !Contains(entries[j].key, ip)
  {
    if entries == [] || Contains(entries[0].key, ip) then 0 else 1 + FirstMatch(entries[1..], ip)
  }

  function Lookup(t: Table, ip: U32): U8 {
    var i := FirstMatch(t.entries, ip);
    if i < |t.entries| then t.entries[i].value else t.defaultGateway
  }

  // ---------- the bounded map it stands for ----------

  datatype RouteMap = RouteMap(defaultGateway: U8, routes: map<Network, U8>)

  function MapApply(m: RouteMap, op: Op): RouteMap {
    match op
    case AddRoute(net, output) =>
      if net == NONE then m.(defaultGateway := output)
      else if net in m.routes || |m.routes| < MAX_ENTRIES then m.(routes := m.routes[net := output])
      else m
    case RemoveRoutes(output) =>
      m.(routes := map net | net in m.routes && m.routes[net] != output :: m.routes[net])
  }

  function MapFold(m: RouteMap, ops: seq<Op>): RouteMap {
    if ops == [] then m else MapApply(MapFold(m, ops[..|ops| - 1]), ops[|ops| - 1])
  }

  predicate Sorted(entries: seq<Route>) {
    forall i, j :: 0 <= i < j < |entries| ==> entries[i].key.mask >= entries[j].key.mask
  }

  /** What every operation keeps. */
  predicate WellFormed(t: Table) {
    && |t.entries| <= MAX_ENTRIES
    && Sorted(t.entries) && UniqueKeys(t.entries)
    && forall i :: 0 <= i < |t.entries| ==> t.entries[i].key != NONE
  }

  function Abstract(t: Table): RouteMap {
    RouteMap(t.defaultGateway, ToMap(t.entries))
  }

  // ---------- the operations refine the map ----------

  predicate InsertionPoint(es: seq<Route>, e: Route, i: nat) {
    && i <= |es|
    && (forall j :: 0 <= j < i ==> es[j].key.mask >= e.key.mask)
    && (forall j :: i <= j < |es| ==> es[j].key.mask <= e.key.mask)
  }

  lemma InsertKeepsSorted(es: seq<Route>, e: Route, i: nat)
    requires Sorted(es) && InsertionPoint(es, e, i)
    ensures Sorted(Insert(es, e, i))
  {
    var r := Insert(es, e, i);
    forall j, k | 0 <= j < k < |r| ensures r[j].key.mask >= r[k].key.mask {
      InsertAt(es, e, i, j);
      InsertAt(es, e, i, k);
    }
  }

  lemma InsertKeepsNonzero(es: seq<Route>, e: Route, i: nat)
    requires i <= |es| && e.key != NONE && forall j :: 0 <= j < |es| ==> es[j].key != NONE
    ensures forall j :: 0 <= j < |Insert(es, e, i)| ==> Insert(es, e, i)[j].key != NONE
  {
    forall j | 0 <= j < |Insert(es, e, i)| ensures Insert(es, e, i)[j].key != NONE { InsertAt(es, e, i, j); }
  }

  lemma AbsentKey(es: seq<Route>, key: Network, i: nat)
    requires i <= |es| && forall j :: 0 <= j < i ==> es[j].key != key
    requires forall j :: i <= j < |es| ==> es[j].key.mask < key.mask
    ensures !HasKey(es, key)
  {}

  /** An absent key stops the search exactly where it has to be inserted. */
  lemma StopIsInsertionPoint(es: seq<Route>, e: Route)
    requires Sorted(es)
    ensures var i := StopIndex(es, e.key);
            i == |es| || es[i].key != e.key ==> InsertionPoint(es, e, i) && !HasKey(es, e.key)
  {
    var i := StopIndex(es, e.key);
    if i < |es| && es[i].key != e.key {
      forall j | i <= j < |es| ensures es[j].key.mask < e.key.mask {
        if j > i { assert es[i].key.mask >= es[j].key.mask; }
      }
      AbsentKey(es, e.key, i);
    }
  }

  lemma InsertRefines(t: Table, net: Network, output: U8)
    requires WellFormed(t) && net != NONE && !HasKey(t.entries, net) && |t.entries| < MAX_ENTRIES
    requires InsertionPoint(t.entries, Entry(net, output), StopIndex(t.entries, net))
    ensures var r := Table(t.defaultGateway, Insert(t.entries, Entry(net, output), StopIndex(t.entries, net)));
            WellFormed(r) && ToMap(r.entries) == ToMap(t.entries)[net := output]
  {
    var es, e, i := t.entries, Entry(net, output), StopIndex(t.entries, net);
    InsertKeepsSorted(es, e, i);
    InsertKeepsUnique(es, e, i);
    InsertKeepsNonzero(es, e, i);
    InsertIsUpdate(es, e, i);
  }

  lemma AddRefines(t: Table, net: Network, output: U8)
    requires WellFormed(t)
    ensures WellFormed(Add(t, net, output))
    ensures Abstract(Add(t, net, output)) == MapApply(Abstract(t), AddRoute(net, output))
  {
    var es, i := t.entries, StopIndex(t.entries, net);
    SizeOfMap(es);
    KeysOfMap(es, net);
    StopIsInsertionPoint(es, Entry(net, output));
    if net == NONE {
    } else if i < |es| && es[i].key == net {
      ReplaceIsUpdate(es, i, output);
    } else if |es| < MAX_ENTRIES {
      InsertRefines(t, net, output);
    }
  }

  lemma WithoutOneMore(es: seq<Route>, i: nat, output: U8)
    requires i < |es|
    ensures Without(es[..i + 1], output) == Without(es[..i], output) + if es[i].value == output then [] else [es[i]]
  {
    assert es[..i + 1][..i] == es[..i] && es[..i + 1][i] == es[i];
  }

  lemma RemoveKeepsOrder(es: seq<Route>, output: U8)
    requires Sorted(es) && forall i :: 0 <= i < |es| ==> es[i].key != NONE
    ensures var r := Without(es, output); Sorted(r) && forall i :: 0 <= i < |r| ==> r[i].key != NONE
  {
    var r := Without(es, output);
    forall j, k | 0 <= j < k < |r| ensures r[j].key.mask >= r[k].key.mask {
      var a, b := WithoutFrom(es, output, j, k);
    }
    forall j | 0 <= j < |r| ensures r[j].key != NONE {
      var a, b := WithoutFrom(es, output, j, j);
    }
  }

  lemma RemoveRefines(t: Table, output: U8)
    requires WellFormed(t)
    ensures WellFormed(Apply(t, RemoveRoutes(output)))
    ensures Abstract(Apply(t, RemoveRoutes(output))) == MapApply(Abstract(t), RemoveRoutes(output))
  {
    RemoveKeepsOrder(t.entries, output);
    WithoutKeepsUnique(t.entries, output);
    WithoutIsRestriction(t.entries, output);
  }

  /** Any sequence of operations keeps the array sorted, its keys unique and its size bounded, and computes what the
      same operations compute on the map. */
  lemma {:induction false} OperationsRefineMap(gateway: U8, ops: seq<Op>)
    ensures WellFormed(Fold(Init(gateway), ops))
    ensures Abstract(Fold(Init(gateway), ops)) == MapFold(RouteMap(gateway, map[]), ops)
  {
    if ops != [] {
      var init, op := ops[..|ops| - 1], ops[|ops| - 1];
      OperationsRefineMap(gateway, init);
      match op {
        case AddRoute(net, output) => AddRefines(Fold(Init(gateway), init), net, output);
        case RemoveRoutes(output) => RemoveRefines(Fold(Init(gateway), init), output);
      }
    }
  }

  // ---------- first match is longest-prefix match ----------

  /** Every mask is a run of leading ones. */
  predicate Contiguous(t: Table) {
    forall i :: 0 <= i < |t.entries| ==> t.entries[i].key.mask == Prefix(Len(t.entries[i].key))
  }

  /** `best` is the matching route of greatest prefix length, and the only one of that length. */
  ghost predicate IsLongestMatch(m: RouteMap, ip: U32, best: Network) {
    && best in m.routes && Contains(best, ip)
    && forall net :: net in m.routes && Contains(net, ip) && net != best ==> Len(net) < Len(best)
  }

  ghost predicate HasMatch(m: RouteMap, ip: U32) {
    exists net :: net in m.routes && Contains(net, ip)
  }

  /** Two different matching networks have different masks, so the later one in the array is shorter. */
  lemma LaterMatchIsShorter(t: Table, ip: U32, i: nat, j: nat)
    requires WellFormed(t) && Contiguous(t) && i < j < |t.entries|
    requires Contains(t.entries[i].key, ip) && Contains(t.entries[j].key, ip)
    ensures Len(t.entries[j].key) < Len(t.entries[i].key)
  {
    var a, b := t.entries[i].key, t.entries[j].key;
    assert a != b;
    PrefixOrder(Len(b), Len(a));
  }

  lemma FirstMatchIsLongest(t: Table, ip: U32)
    requires WellFormed(t) && Contiguous(t) && FirstMatch(t.entries, ip) < |t.entries|
    ensures var e := t.entries[FirstMatch(t.entries, ip)];
            IsLongestMatch(Abstract(t), ip, e.key) && Abstract(t).routes[e.key] == e.value
  {
    var i := FirstMatch(t.entries, ip);
    ValueInMap(t.entries, i);
    forall net | net in Abstract(t).routes && Contains(net, ip) && net != t.entries[i].key
      ensures Len(net) < Len(t.entries[i].key)
    {
      OtherMatchIsShorter(t, ip, net);
    }
  }

  lemma OtherMatchIsShorter(t: Table, ip: U32, net: Network)
    requires WellFormed(t) && Contiguous(t) && FirstMatch(t.entries, ip) < |t.entries|
    requires net in Abstract(t).routes && Contains(net, ip) && net != t.entries[FirstMatch(t.entries, ip)].key
    ensures Len(net) < Len(t.entries[FirstMatch(t.entries, ip)].key)
  {
    KeysOfMap(t.entries, net);
    var j :| 0 <= j < |t.entries| && t.entries[j].key == net;
    LaterMatchIsShorter(t, ip, FirstMatch(t.entries, ip), j);
  }

  /** The lookup of a reachable table with contiguous masks: the route of the longest matching prefix, or the default
      gateway exactly when nothing matches (the search the standard describes in section 5.2.4.3 of RFC 1812). */
  lemma RouteIsLongestPrefixMatch(t: Table, ip: U32)
    requires WellFormed(t) && Contiguous(t)
    ensures HasMatch(Abstract(t), ip) <==> FirstMatch(t.entries, ip) < |t.entries|
    ensures IsRouteOf(Abstract(t), ip, Lookup(t, ip))
  {
    var i := FirstMatch(t.entries, ip);
    var m := Abstract(t);
    if i < |t.entries| {
      FirstMatchIsLongest(t, ip);
    } else if HasMatch(m, ip) {
      var net :| net in m.routes && Contains(net, ip);
      KeysOfMap(t.entries, net);
    }
  }

  /** The output that longest-prefix match prescribes. */
  ghost predicate IsRouteOf(m: RouteMap, ip: U32, output: U8) {
    if HasMatch(m, ip) then exists best :: IsLongestMatch(m, ip, best) && output == m.routes[best]
    else output == m.defaultGateway
  }

  predicate ContiguousOps(ops: seq<Op>) {
    forall i :: 0 <= i < |ops| && ops[i].AddRoute? ==> ops[i].net.mask == Prefix(Len(ops[i].net))
  }

  lemma ApplyKeepsContiguous(t: Table, op: Op)
    requires Contiguous(t) && (op.AddRoute? ==> op.net.mask == Prefix(Len(op.net)))
    ensures Contiguous(Apply(t, op))
  {
    var r := Apply(t, op).entries;
    var es := t.entries;
    forall j | 0 <= j < |r| ensures r[j].key.mask == Prefix(Len(r[j].key)) {
      match op {
        case AddRoute(net, output) =>
          if |r| == |es| + 1 { InsertAt(es, Entry(net, output), StopIndex(es, net), j); }
        case RemoveRoutes(output) =>
          var a, b := WithoutFrom(es, output, j, j);
      }
    }
  }

  lemma {:induction false} FoldKeepsContiguous(gateway: U8, ops: seq<Op>)
    requires ContiguousOps(ops)
    ensures Contiguous(Fold(Init(gateway), ops))
  {
    if ops != [] {
      FoldKeepsContiguous(gateway, ops[..|ops| - 1]);
      ApplyKeepsContiguous(Fold(Init(gateway), ops[..|ops| - 1]), ops[|ops| - 1]);
    }
  }

  /** After any sequence of adds and removes with contiguous masks, lookup is longest-prefix match in the abstract map
      that the sequence builds. */
  lemma LookupAfterOperations(gateway: U8, ops: seq<Op>, ip: U32)
    requires ContiguousOps(ops)
    ensures IsRouteOf(MapFold(RouteMap(gateway, map[]), ops), ip, Lookup(Fold(Init(gateway), ops), ip))
  {
    OperationsRefineMap(gateway, ops);
    FoldKeepsContiguous(gateway, ops);
    RouteIsLongestPrefixMatch(Fold(Init(gateway), ops), ip);
  }

  /** Only an add of the zero network touches the default gateway, and it touches nothing else. */
  lemma OnlyZeroAddsMoveTheGateway(t: Table, op: Op)
    ensures Apply(t, op).defaultGateway != t.defaultGateway ==> op == AddRoute(NONE, Apply(t, op).defaultGateway)
    ensures op.AddRoute? && op.net == NONE ==> Apply(t, op) == Table(op.output, t.entries)
  {}

  // ---------- rt_routing_table_t ----------

  class RoutingTable {
    var defaultGateway: U8
    var count: nat
    const entries: array<Route>
    var panics: nat     // calls of os_panic, which logs and returns

    ghost predicate Valid()
      reads this
    {
      entries.Length == MAX_ENTRIES && count <= MAX_ENTRIES
    }

    ghost function Contents(): Table
      requires Valid()
      reads this, entries
    {
      Table(defaultGateway, entries[..count])
    }

    /** routing_table_init */
    constructor (gateway: U8)
      ensures Valid() && fresh(entries) && Contents() == Init(gateway) && panics == 0
    {
      entries := new Route[MAX_ENTRIES](_ => Entry(NONE, 0));
      defaultGateway := gateway;
      count, panics := 0, 0;
    }

    /** The loop of routing_table_add: the position it leaves in `position`. */
    method FindPosition(net: Network) returns (position: nat)
      requires Valid()
      ensures position == StopIndex(Contents().entries, net)
    {
      ghost var es := Contents().entries;
      position := 0;
      while position < count && entries[position].key != net && entries[position].key.mask >= net.mask
        invariant position <= count && position <= StopIndex(es, net)
      {
        assert es[position] == entries[position];
        position := position + 1;
      }
      if position < count { assert es[position] == entries[position]; }
    }

    /** The memmove and the write of routing_table_add. */
    method InsertAtPosition(e: Route, position: nat)
      requires Valid() && count < MAX_ENTRIES && position <= count
      modifies this`count, entries
      ensures Valid() && Contents() == old(Contents()).(entries := Insert(old(Contents()).entries, e, position))
    {
      ghost var was := Contents().entries;
      forall j | position < j <= count {
        entries[j] := entries[j - 1];
      }
      entries[position] := e;
      count := count + 1;
      ghost var r := Insert(was, e, position);
      forall j | 0 <= j < count ensures entries[j] == r[j] { InsertAt(was, e, position, j); }
      assert entries[..count] == r;
    }

    /** routing_table_add */
    method AddRoute(net: Network, output: U8)
      requires Valid()
      modifies this, entries
      ensures Valid() && Contents() == Add(old(Contents()), net, output)
      ensures panics == old(panics) + if IsLost(old(Contents()), net) then 1 else 0
    {
      if net == NONE {
        defaultGateway := output;
        return;
      }
      ghost var was := Contents().entries;
      var position := FindPosition(net);
      if position < count && entries[position].key == net {
        entries[position] := Entry(net, output);
        assert entries[..count] == was[position := Entry(net, output)];
      } else if count < MAX_ENTRIES {
        InsertAtPosition(Entry(net, output), position);
      } else {
        panics := panics + 1;
      }
    }

    /** routing_table_remove_by_output */
    method RemoveByOutput(output: U8)
      requires Valid()
      modifies this`count, entries
      ensures Valid() && Contents() == Apply(old(Contents()), RemoveRoutes(output))
    {
      var shadow, shadowCount := entries[..], count;
      ghost var was := Contents().entries;
      var newCount := 0;
      var i := 0;
      while i < shadowCount
        invariant 0 <= newCount <= i <= shadowCount == count
        invariant Valid() && defaultGateway == old(defaultGateway)
        invariant entries[..newCount] == Without(was[..i], output)
      {
        WithoutOneMore(was, i, output);
        if shadow[i].value != output {
          entries[newCount] := shadow[i];
          newCount := newCount + 1;
          assert entries[..newCount] == entries[..newCount - 1] + [shadow[i]];
        }
        i := i + 1;
      }
      assert was[..shadowCount] == was;
      count := newCount;
    }

    /** routing_table_route */
    method Route(ip: U32) returns (output: U8)
      requires Valid()
      ensures output == Lookup(Contents(), ip)
    {
      ghost var es := Contents().entries;
      var i := 0;
      while i < count
        invariant 0 <= i <= count && i <= FirstMatch(es, ip)
      {
        assert es[i] == entries[i];
        if Contains(entries[i].key, ip) {
          return entries[i].value;
        }
        i := i + 1;
      }
      return defaultGateway;
    }
  }
}
