/** One device of the SPI ring as broadcast.c, ring_link_lowlevel.c, ring_link_internal.c and ring_link.c write it:
    payload buffers are changed in place, and every payload gets the verdict of RingLink.dfy. */
module RingDevices {
  import opened Bits
  import opened RingBroadcast
  import opened RingLink

  /** A buffer of the receive pool, or one on the sender's stack. */
  class PayloadBuffer {
    var payload: Payload

    constructor (payload: Payload)
      ensures this.payload == payload
    {
      this.payload := payload;
    }
  }

  /** What a device has done so far. */
  datatype Effects = Effects(transmitted: seq<Payload>, handedUp: seq<Body>, notified: nat)

  /** A verdict carried out: an acknowledgement reaches a task only if one waits. */
  function CarriedOut(e: Effects, v: Verdict, p: Payload, waiting: bool): Effects {
    Effects(e.transmitted + v.on,
            e.handedUp + if v.up then [p.body] else [],
            e.notified + if v.acked && waiting then 1 else 0)
  }

  class RingDevice {
    const me: U8
    const mtu: nat                      // RING_LINK_NETIF_MTU
    const crc: Checksum
    var idCounter: U8                   // s_id_counter
    var waiting: bool                   // s_broadcast_task is set
    var notified: nat                   // how often that task was notified
    var transmitted: seq<Payload>       // what went out on the SPI link
    var handedUp: seq<Body>             // what node_on_sibling_message or the network interface was given

    constructor (me: U8, mtu: nat, crc: Checksum)
      ensures this.me == me && this.mtu == mtu && this.crc == crc && idCounter == 0 && !waiting
      ensures notified == 0 && transmitted == [] && handedUp == []
    {
      this.me, this.mtu, this.crc := me, mtu, crc;
      idCounter, waiting, notified := 0, false, 0;
      transmitted, handedUp := [], [];
    }

    function SoFar(): Effects
      reads this
    {
      Effects(transmitted, handedUp, notified)
    }

    /** ring_link_lowlevel_transmit_payload */
    method TransmitPayload(p: PayloadBuffer)
      modifies this`transmitted, p
      ensures p.payload == Stamped(crc, old(p.payload).body, old(p.payload).num)
      ensures transmitted == old(transmitted) + [p.payload]
    {
      p.payload := p.payload.(crc32 := crc(p.payload.body));
      transmitted := transmitted + [p.payload];
    }

    /** ring_link_lowlevel_forward_payload */
    method ForwardPayload(p: PayloadBuffer)
      modifies this`transmitted, p
      ensures transmitted == old(transmitted) + Forwarded(crc, old(p.payload))
    {
      if p.payload.body.ttl == 0 { return; }
      p.payload := p.payload.(body := p.payload.body.(ttl := p.payload.body.ttl - 1));
      TransmitPayload(p);
    }

    method HandUp(p: PayloadBuffer)
      modifies this`handedUp
      ensures handedUp == old(handedUp) + [p.payload.body]
    {
      handedUp := handedUp + [p.payload.body];
    }

    /** send_broadcast: the id is used up even when the message is too long. */
    method SendBroadcast(buffer: seq<U8>, num: nat) returns (ok: bool)
      requires |buffer| < TWO16
      modifies this`idCounter, this`transmitted
      ensures ok == (|buffer| <= mtu) && idCounter == NextId(old(idCounter))
      ensures transmitted == old(transmitted) + if ok then [Broadcasting(crc, me, old(idCounter), buffer, num)] else []
    {
      var body := Body(idCounter, INTERNAL, |buffer|, TTL, me, ID_ALL, buffer);
      idCounter := NextId(idCounter);
      if |buffer| > mtu { return false; }
      var p := new PayloadBuffer(Payload(body, 0, num));
      TransmitPayload(p);
      return true;
    }

    /** broadcast_handler: the task that waits is told, whichever broadcast it waits for. */
    method BroadcastHandler(p: PayloadBuffer)
      modifies this, p
      ensures SoFar() == CarriedOut(old(SoFar()), BroadcastVerdict(crc, me, old(p.payload)), old(p.payload), waiting)
      ensures waiting == old(waiting) && idCounter == old(idCounter)
    {
      if p.payload.body.src == me {
        if waiting { notified := notified + 1; }
      } else {
        HandUp(p);
        ForwardPayload(p);
      }
    }

    /** ring_link_internal_handler */
    method InternalHandler(p: PayloadBuffer)
      modifies this, p
      ensures SoFar() == CarriedOut(old(SoFar()), InternalVerdict(crc, me, old(p.payload)), old(p.payload), waiting)
      ensures waiting == old(waiting) && idCounter == old(idCounter)
    {
      if p.payload.body.dst == ID_ALL {
        BroadcastHandler(p);
      } else if p.payload.body.dst == me || p.payload.body.dst == ID_ANY {
        HandUp(p);
      } else {
        ForwardPayload(p);
      }
    }

    /** process_payload, and the handler of the queue that it picks. */
    method ProcessPayload(p: PayloadBuffer)
      modifies this, p
      ensures SoFar() == CarriedOut(old(SoFar()), ReceivedVerdict(crc, me, old(p.payload)), old(p.payload), waiting)
      ensures waiting == old(waiting) && idCounter == old(idCounter)
    {
      if crc(p.payload.body) != p.payload.crc32 {
      } else if p.payload.body.kind == INTERNAL {
        InternalHandler(p);
      } else if p.payload.body.kind == ESP_NETIF {
        if p.payload.body.dst == me || p.payload.body.dst == ID_ANY { HandUp(p); }
      }
    }
  }
}
