/** Payloads of the SPI ring and what one device does with one: ring_link_payload.c, ring_link_lowlevel.c, broadcast.c
    and ring_link_internal.c. The checksum is any function of the fields it covers. */
module RingLink {
  import opened Bits

  const TTL: U8 := 4
  const ID_ANY: U8 := 10
  const ID_ALL: U8 := 11
  const INTERNAL: U8 := 0x11
  const ESP_NETIF: U8 := 0x80

  /** The fields that the checksum covers. */
  datatype Body = Body(id: U8, kind: U8, len: U16, ttl: U8, src: U8, dst: U8, buffer: seq<U8>)

  /** `num` is history: it tells broadcasts apart where their one-byte ids repeat. */
  datatype Payload = Payload(body: Body, crc32: U32, num: nat)

  type Checksum = Body -> U32

  /** The checksum is refreshed by every transmission. */
  function Stamped(crc: Checksum, body: Body, num: nat): Payload {
    Payload(body, crc(body), num)
  }

  /** ring_link_lowlevel_forward_payload: what is transmitted. */
  function Forwarded(crc: Checksum, p: Payload): seq<Payload> {
    if p.body.ttl == 0 then [] else [Stamped(crc, p.body.(ttl := p.body.ttl - 1), p.num)]
  }

  /** What a device does with a payload: hand it up to the node, acknowledge its own broadcast, transmit. */
  datatype Verdict = Verdict(up: bool, acked: bool, on: seq<Payload>)

  const DROPPED := Verdict(false, false, [])

  function BroadcastVerdict(crc: Checksum, me: U8, p: Payload): Verdict {
    if p.body.src == me then Verdict(false, true, []) else Verdict(true, false, Forwarded(crc, p))
  }

  predicate IsForDevice(me: U8, p: Payload) {
    p.body.dst == me || p.body.dst == ID_ANY
  }

  function InternalVerdict(crc: Checksum, me: U8, p: Payload): Verdict {
    if p.body.dst == ID_ALL then BroadcastVerdict(crc, me, p)
    else if IsForDevice(me, p) then Verdict(true, false, [])
    else Verdict(false, false, Forwarded(crc, p))
  }

  /** process_payload and the handler of the queue that it picks. */
  function ReceivedVerdict(crc: Checksum, me: U8, p: Payload): Verdict {
    if crc(p.body) != p.crc32 then DROPPED
    else if p.body.kind == INTERNAL then InternalVerdict(crc, me, p)
    else if p.body.kind == ESP_NETIF then Verdict(IsForDevice(me, p), false, [])
    else DROPPED
  }

  /** send_broadcast's payload. */
  function Broadcasting(crc: Checksum, me: U8, id: U8, buffer: seq<U8>, num: nat): Payload
    requires |buffer| < TWO16
  {
    Stamped(crc, Body(id, INTERNAL, |buffer|, TTL, me, ID_ALL, buffer), num)
  }
}
