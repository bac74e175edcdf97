/** The token ring of leader.c, follower.c and sync.c. */
module Sync {
  import opened Bits

  /** RS_LAST_COMPONENT_ID */
  const COMPONENTS: nat := 7

  type ComponentId = c: nat | c < COMPONENTS

  /** RS_ROUTING */
  const ROUTING: ComponentId := 1

  const MAX_PENDING: nat := 255

  /** ORIENTATION_NORTH, which sync_leader_init makes the first device to get a token. */
  const FIRST: U8 := 1

  datatype SyncMsg =
    | Grant(cs: ComponentId, destination: U8)
    | Request(cs: ComponentId)

  /** is_token_out[cs] and requested_tokens[cs] of the leader. */
  datatype Slot = Slot(tokenOut: bool, pending: nat)

  const EMPTY_SLOT := Slot(false, 0)

  /** request_critical_section of the leader, and whether it issues a token. */
  function OnRequest(s: Slot): (Slot, bool) {
    if !s.tokenOut then (s.(tokenOut := true), true)
    else if s.pending < MAX_PENDING then (s.(pending := s.pending + 1), false)
    else (s, false)
  }

  /** The end of the leader's on_token_grant, and whether it issues a token. */
  function OnRoundEnd(s: Slot): (Slot, bool) {
    if s.pending > 0 then (s.(tokenOut := true, pending := s.pending - 1), true)
    else (s.(tokenOut := false), false)
  }

  /** The device a follower passes the token to. */
  function NextDevice(orientation: U8, devices: U8): U8
    requires 0 < devices < 0xFF
  {
    orientation % devices + 1
  }
}
