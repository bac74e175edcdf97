/** shared_state.c: whole-copy replication of a watched memory region, allowed only inside the component's critical
    section. */
module SharedStates {
  import opened Bits
  import opened Sync
  import opened SyncDevices

  datatype Region = Unwatched | Watched(buffer: array<U8>)

  /** shared_state_t */
  class SharedState {
    const sync: SyncDevice
    const regions: array<Region>
    var broadcasts: seq<seq<U8>>    // what rs_broadcast was given
    var panics: nat                 // how often os_panic was called; it logs and returns

    predicate Valid()
      reads this
    {
      regions.Length == COMPONENTS && sync.inside.Length == COMPONENTS
    }

    function Buffers(): set<array<U8>>
      requires regions.Length == COMPONENTS
      reads regions
    {
      set c: ComponentId | c < COMPONENTS && regions[c].Watched? :: regions[c].buffer
    }

    /** ss_init */
    constructor (sync: SyncDevice)
      requires sync.inside.Length == COMPONENTS
      ensures Valid() && this.sync == sync && fresh(regions) && broadcasts == [] && panics == 0
      ensures forall c: ComponentId :: regions[c].Unwatched?
    {
      this.sync := sync;
      regions := new Region[COMPONENTS](_ => Unwatched);
      broadcasts, panics := [], 0;
    }

    /** ss_watch */
    method Watch(c: ComponentId, buffer: array<U8>)
      requires Valid()
      modifies regions
      ensures regions[..] == old(regions[..])[c := Watched(buffer)]
    {
      regions[c] := Watched(buffer);
    }

    /** A copy is taken only for a known, watched component and only at its full length. An empty message, whose
        component is whatever the receive buffer happens to hold, never has the right length. */
    predicate Accepts(raw: seq<U8>)
      requires regions.Length == COMPONENTS
      reads regions
    {
      |raw| > 0 && raw[0] < COMPONENTS && regions[raw[0]].Watched? && regions[raw[0]].buffer.Length == |raw| - 1
    }

    /** on_sibling_message: the named region becomes the copy, or the message is dropped and nothing changes. */
    method OnSiblingMessage(raw: seq<U8>)
      requires Valid()
      modifies this`panics, Buffers()
      ensures Accepts(raw) ==> panics == old(panics) && regions[raw[0]].buffer[..] == raw[1..]
      ensures !Accepts(raw) ==> panics == old(panics) + 1
      ensures forall c: ComponentId :: regions[c].Watched? ==>
                || (Accepts(raw) && regions[c].buffer == regions[raw[0]].buffer)
                || regions[c].buffer[..] == old(regions[c].buffer[..])
    {
      if |raw| == 0 || raw[0] >= COMPONENTS || !regions[raw[0]].Watched? || regions[raw[0]].buffer.Length != |raw| - 1 {
        panics := panics + 1;
        return;
      }
      var id: ComponentId := raw[0];
      var buffer := regions[id].buffer;
      assert buffer in Buffers();
      for i := 0 to buffer.Length
        invariant panics == old(panics) && buffer[..i] == raw[1..][..i]
        invariant forall c: ComponentId :: regions[c].Watched? && regions[c].buffer != buffer ==>
                    regions[c].buffer[..] == old(regions[c].buffer[..])
      {
        buffer[i] := raw[1 + i];
        assert buffer[..i + 1] == buffer[..i] + [raw[1 + i]];
      }
      assert buffer[..] == buffer[..buffer.Length] && raw[1..] == raw[1..][..buffer.Length];
    }

    /** What a component watches; nothing if it watches nothing. */
    function Contents(c: ComponentId): seq<U8>
      requires regions.Length == COMPONENTS
      reads regions, if regions[c].Watched? then {regions[c].buffer} else {}
    {
      if regions[c].Watched? then regions[c].buffer[..] else []
    }

    /** broadcast_data: without a watched region only the id is sent. */
    method BroadcastData(c: ComponentId)
      requires Valid()
      modifies this`broadcasts
      ensures broadcasts == old(broadcasts) + [[c] + Contents(c)]
    {
      broadcasts := broadcasts + [[c] + Contents(c)];
    }

    /** ss_refresh: outside the critical section nothing is sent. */
    method Refresh(c: ComponentId)
      requires Valid()
      modifies this`broadcasts, this`panics
      ensures sync.IsInside(c) ==> broadcasts == old(broadcasts) + [[c] + Contents(c)] && panics == old(panics)
      ensures !sync.IsInside(c) ==> broadcasts == old(broadcasts) && panics == old(panics) + 1
    {
      if !sync.IsInside(c) {
        panics := panics + 1;
        return;
      }
      BroadcastData(c);
    }
  }

  /** A refresh on one device, delivered to another that watches a region of the same length, makes its region a copy;
      the region that was refreshed keeps its contents. */
  method Replicate(from: SharedState, to: SharedState, c: ComponentId)
    requires from.Valid() && to.Valid() && from != to && from.sync.IsInside(c)
    requires from.regions[c].Watched? && to.regions[c].Watched?
    requires from.regions[c].buffer !in to.Buffers() && from.regions[c].buffer.Length == to.regions[c].buffer.Length
    modifies from, to, to.Buffers()
    ensures to.regions[c].buffer[..] == old(from.regions[c].buffer[..]) == from.regions[c].buffer[..]
    ensures to.panics == old(to.panics) && from.panics == old(from.panics)
  {
    from.Refresh(c);
    var raw := from.broadcasts[|from.broadcasts| - 1];
    assert raw[1..] == from.regions[c].buffer[..];
    to.OnSiblingMessage(raw);
  }
}
