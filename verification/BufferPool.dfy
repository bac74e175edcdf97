/** The receive buffers of the SPI ring: eight buffers that move between a free list, four queues and the tasks of
    spi.c, ring_link.c, ring_link_internal.c and ring_link_netif.c. Over every interleaving each buffer is in exactly
    one place, so no buffer leaks, none is freed twice, and no queue is ever found full. */
module BufferPool {
  import opened Fifo

  /** NUM_BUFFERS, and with it the capacity of the free queue and of the receive queue. */
  const BUFFERS: nat := 8

  /** RING_LINK_INTERNAL_QUEUE_SIZE */
  const INTERNAL_CAPACITY: nat := 10

  /** RING_LINK_NETIF_QUEUE_SIZE */
  const NETIF_CAPACITY: nat := 40

  type Buffer = b: nat | b < BUFFERS

  /** The queues, and what the four tasks have in hand (nothing or one buffer). `full` counts the times a queue was
      found full; it is history. */
  datatype Pool = Pool(
    free: seq<Buffer>,
    polling: seq<Buffer>,        // spi_polling_task, and the transfer in progress
    received: seq<Buffer>,       // spi_rx_queue
    linking: seq<Buffer>,        // ring_link_process_task
    internal: seq<Buffer>,       // ring_link_internal_queue
    handling: seq<Buffer>,       // ring_link_internal_process_task
    netif: seq<Buffer>,          // ring_link_netif_queue
    accepting: seq<Buffer>,      // ring_link_netif_process_task
    full: nat)

  // ---------- the steps of the tasks ----------

  /** xQueueSend without waiting: the queue and whether the item was accepted. */
  function Send(q: seq<Buffer>, capacity: nat, b: Buffer): (seq<Buffer>, bool) {
    if |q| < capacity then (q + [b], true) else (q, false)
  }

  /** spi_free_rx_buffer: a full free queue would lose the buffer. */
  function Free(p: Pool, b: Buffer): Pool {
    var (q, sent) := Send(p.free, BUFFERS, b);
    p.(free := q, full := if sent then p.full else p.full + 1)
  }

  datatype PoolStep =
    | PollTakes             // a free buffer is taken for the next transfer
    | TransferFails         // spi_slave_transmit reports an error
    | TransferDone          // spi_post_trans_cb
    | LinkTakes
    | LinkDrops             // wrong checksum or unknown type
    | LinkToInternal
    | LinkToNetif
    | InternalTakes
    | InternalFrees
    | NetifTakes
    | NetifFrees

  /** A task with empty hands takes the head of a queue; a task with a buffer in hand gives it away. */
  predicate Enabled(p: Pool, step: PoolStep) {
    match step
    case PollTakes => p.polling == [] && p.free != []
    case TransferFails | TransferDone => p.polling != []
    case LinkTakes => p.linking == [] && p.received != []
    case LinkDrops | LinkToInternal | LinkToNetif => p.linking != []
    case InternalTakes => p.handling == [] && p.internal != []
    case InternalFrees => p.handling != []
    case NetifTakes => p.accepting == [] && p.netif != []
    case NetifFrees => p.accepting != []
  }

  function Next(p: Pool, step: PoolStep): Pool
    requires Enabled(p, step)
  {
    match step
    case PollTakes => p.(polling := [p.free[0]], free := p.free[1..])
    case TransferFails => Free(p.(polling := p.polling[1..]), p.polling[0])
    case TransferDone =>
      var idle := p.(polling := p.polling[1..]);
      var (q, sent) := Send(p.received, BUFFERS, p.polling[0]);
      if sent then idle.(received := q) else Free(idle.(full := p.full + 1), p.polling[0])
    case LinkTakes => p.(linking := [p.received[0]], received := p.received[1..])
    case LinkDrops => Free(p.(linking := p.linking[1..]), p.linking[0])
    case LinkToInternal =>
      var idle := p.(linking := p.linking[1..]);
      var (q, sent) := Send(p.internal, INTERNAL_CAPACITY, p.linking[0]);
      if sent then idle.(internal := q) else Free(idle.(full := p.full + 1), p.linking[0])
    case LinkToNetif =>
      var idle := p.(linking := p.linking[1..]);
      var (q, sent) := Send(p.netif, NETIF_CAPACITY, p.linking[0]);
      if sent then idle.(netif := q) else Free(idle.(full := p.full + 1), p.linking[0])
    case InternalTakes => p.(handling := [p.internal[0]], internal := p.internal[1..])
    case InternalFrees => Free(p.(handling := p.handling[1..]), p.handling[0])
    case NetifTakes => p.(accepting := [p.netif[0]], netif := p.netif[1..])
    case NetifFrees => Free(p.(accepting := p.accepting[1..]), p.accepting[0])
  }

  // ---------- conservation ----------

  /** In how many places buffer `b` is. */
  function Places(p: Pool, b: Buffer): nat {
    Count(p.free, b) + Count(p.polling, b) + Count(p.received, b) + Count(p.linking, b)
    + Count(p.internal, b) + Count(p.handling, b) + Count(p.netif, b) + Count(p.accepting, b)
  }

  function Size(p: Pool): nat {
    |p.free| + |p.polling| + |p.received| + |p.linking| + |p.internal| + |p.handling| + |p.netif| + |p.accepting|
  }

  predicate Conserved(p: Pool) {
    p.full == 0 && Size(p) == BUFFERS && forall b: Buffer :: Places(p, b) == 1
  }

  /** A task takes the head of a queue. */
  lemma TakingMoves(p: Pool, step: PoolStep, b: Buffer)
    requires Enabled(p, step) && (step.PollTakes? || step.LinkTakes? || step.InternalTakes? || step.NetifTakes?)
    ensures var r := Next(p, step); r.full == p.full && Size(r) == Size(p) && Places(r, b) == Places(p, b)
  {
    match step {
      case PollTakes => Alone(p.free[0], b);
      case LinkTakes => Alone(p.received[0], b);
      case InternalTakes => Alone(p.internal[0], b);
      case NetifTakes => Alone(p.netif[0], b);
    }
  }

  /** With a buffer in hand there is room in every queue, so giving it away only moves it. */
  lemma FreeingMoves(p: Pool, step: PoolStep, b: Buffer)
    requires Size(p) == BUFFERS && Enabled(p, step)
    requires step.TransferFails? || step.LinkDrops? || step.InternalFrees? || step.NetifFrees?
    ensures var r := Next(p, step); r.full == p.full && Size(r) == Size(p) && Places(r, b) == Places(p, b)
  {
    match step {
      case TransferFails => CountAppend(p.free, b, p.polling[0]);
      case LinkDrops => CountAppend(p.free, b, p.linking[0]);
      case InternalFrees => CountAppend(p.free, b, p.handling[0]);
      case NetifFrees => CountAppend(p.free, b, p.accepting[0]);
    }
  }

  lemma QueueingMoves(p: Pool, step: PoolStep, b: Buffer)
    requires Size(p) == BUFFERS && Enabled(p, step) && (step.TransferDone? || step.LinkToInternal? || step.LinkToNetif?)
    ensures var r := Next(p, step); r.full == p.full && Size(r) == Size(p) && Places(r, b) == Places(p, b)
  {
    match step {
      case TransferDone => CountAppend(p.received, b, p.polling[0]);
      case LinkToInternal => CountAppend(p.internal, b, p.linking[0]);
      case LinkToNetif => CountAppend(p.netif, b, p.linking[0]);
    }
  }

  lemma StepMoves(p: Pool, step: PoolStep, b: Buffer)
    requires Size(p) == BUFFERS && Enabled(p, step)
    ensures var r := Next(p, step); r.full == p.full && Size(r) == Size(p) && Places(r, b) == Places(p, b)
  {
    match step {
      case PollTakes | LinkTakes | InternalTakes | NetifTakes => TakingMoves(p, step, b);
      case TransferFails | LinkDrops | InternalFrees | NetifFrees => FreeingMoves(p, step, b);
      case TransferDone | LinkToInternal | LinkToNetif => QueueingMoves(p, step, b);
    }
  }

  lemma Alone(x: Buffer, b: Buffer)
    ensures Count([x], b) == if x == b then 1 else 0
  {
    assert [x][1..] == [];
  }

  lemma StepConserves(p: Pool, step: PoolStep)
    requires Conserved(p) && Enabled(p, step)
    ensures Conserved(Next(p, step))
  {
    StepMoves(p, step, 0);
    forall b: Buffer ensures Places(Next(p, step), b) == 1 { StepMoves(p, step, b); }
  }

  predicate IsRun(p: Pool, steps: seq<PoolStep>)
    decreases |steps|
  {
    steps == [] || (Enabled(p, steps[0]) && IsRun(Next(p, steps[0]), steps[1..]))
  }

  function After(p: Pool, steps: seq<PoolStep>): Pool
    requires IsRun(p, steps)
    decreases |steps|
  {
    if steps == [] then p else After(Next(p, steps[0]), steps[1..])
  }

  lemma {:induction false} RunConserves(p: Pool, steps: seq<PoolStep>)
    requires Conserved(p) && IsRun(p, steps)
    ensures Conserved(After(p, steps))
    decreases |steps|
  {
    if steps != [] {
      StepConserves(p, steps[0]);
      RunConserves(Next(p, steps[0]), steps[1..]);
    }
  }

  /** The first `k` buffers in order. */
  function FirstBuffers(k: nat): (r: seq<Buffer>)
    requires k <= BUFFERS
    ensures |r| == k
  {
    if k == 0 then [] else FirstBuffers(k - 1) + [k - 1]
  }

  lemma {:induction false} FirstBuffersOnce(k: nat, b: Buffer)
    requires k <= BUFFERS
    ensures Count(FirstBuffers(k), b) == if b < k then 1 else 0
  {
    if k > 0 {
      FirstBuffersOnce(k - 1, b);
      var last: Buffer := k - 1;
      CountAppend<Buffer>(FirstBuffers(k - 1), b, last);
      assert FirstBuffers(k) == FirstBuffers(k - 1) + [last];
    }
  }

  function StartPool(): Pool {
    Pool(FirstBuffers(BUFFERS), [], [], [], [], [], [], [], 0)
  }

  /** Over every interleaving of the polling task, the interrupt and the three processing tasks, each buffer is in
      exactly one place and no queue has ever been found full. */
  lemma EveryBufferIsInOnePlace(steps: seq<PoolStep>)
    requires IsRun(StartPool(), steps)
    ensures var p := After(StartPool(), steps);
            p.full == 0 && Size(p) == BUFFERS && forall b: Buffer :: Places(p, b) == 1
  {
    forall b: Buffer ensures Places(StartPool(), b) == 1 { FirstBuffersOnce(BUFFERS, b); }
    RunConserves(StartPool(), steps);
  }

  // ---------- the tasks as written ----------

  /** The queues of the C modules, and the buffer each task has in hand. */
  class Tasks {
    var free: seq<Buffer>
    var polling: seq<Buffer>
    var received: seq<Buffer>
    var linking: seq<Buffer>
    var internal: seq<Buffer>
    var handling: seq<Buffer>
    var netif: seq<Buffer>
    var accepting: seq<Buffer>
    var full: nat

    function State(): Pool
      reads this
    {
      Pool(free, polling, received, linking, internal, handling, netif, accepting, full)
    }

    /** spi_init and the queue creations: the loop puts every buffer of the pool on the free queue. */
    constructor ()
      ensures State() == StartPool()
    {
      free, polling, received, linking, internal, handling, netif, accepting := [], [], [], [], [], [], [], [];
      full := 0;
      new;
      var i := 0;
      while i < BUFFERS
        invariant i <= BUFFERS
        invariant State() == Pool(FirstBuffers(i), [], [], [], [], [], [], [], 0)
      {
        free := free + [i];
        i := i + 1;
      }
    }

    /** spi_free_rx_buffer */
    method FreeRxBuffer(b: Buffer)
      modifies this`free, this`full
      ensures State() == Free(old(State()), b)
    {
      if |free| < BUFFERS { free := free + [b]; } else { full := full + 1; }
    }

    /** The first half of a round of spi_polling_task. */
    method PollTakesBuffer()
      requires Enabled(State(), PollTakes)
      modifies this
      ensures State() == Next(old(State()), PollTakes)
    {
      polling, free := [free[0]], free[1..];
    }

    /** The end of a transfer: the interrupt has queued the buffer, or the polling task gives it back. */
    method EndTransfer(ok: bool)
      requires Enabled(State(), TransferDone)
      modifies this
      ensures State() == Next(old(State()), if ok then TransferDone else TransferFails)
    {
      var b := polling[0];
      polling := polling[1..];
      if !ok {
        FreeRxBuffer(b);
      } else if |received| < BUFFERS {
        received := received + [b];
      } else {
        full := full + 1;
        FreeRxBuffer(b);
      }
    }

    /** What process_payload does with the buffer that it has taken. */
    method PassPayload(crcMatches: bool, isInternal: bool, isNetif: bool) returns (ghost step: PoolStep)
      requires |linking| == 1
      modifies this
      ensures step == if !crcMatches then LinkDrops else if isInternal then LinkToInternal
                      else if isNetif then LinkToNetif else LinkDrops
      ensures Enabled(old(State()), step) && State() == Next(old(State()), step)
    {
      var b := linking[0];
      linking := [];
      if !crcMatches {
        step := LinkDrops;
        FreeRxBuffer(b);
      } else if isInternal {
        step := LinkToInternal;
        if |internal| < INTERNAL_CAPACITY { internal := internal + [b]; } else { full := full + 1; FreeRxBuffer(b); }
      } else if isNetif {
        step := LinkToNetif;
        if |netif| < NETIF_CAPACITY { netif := netif + [b]; } else { full := full + 1; FreeRxBuffer(b); }
      } else {
        step := LinkDrops;
        FreeRxBuffer(b);
      }
    }

    /** A round of ring_link_process_task: process_payload on the next received buffer. */
    method ProcessPayload(crcMatches: bool, isInternal: bool, isNetif: bool) returns (ghost steps: seq<PoolStep>)
      requires Enabled(State(), LinkTakes)
      modifies this
      ensures IsRun(old(State()), steps) && State() == After(old(State()), steps)
      ensures steps == [LinkTakes, if !crcMatches then LinkDrops else if isInternal then LinkToInternal
                                   else if isNetif then LinkToNetif else LinkDrops]
    {
      ghost var start := State();
      linking, received := [received[0]], received[1..];
      ghost var step := PassPayload(crcMatches, isInternal, isNetif);
      steps := [LinkTakes, step];
      TwoSteps(start, LinkTakes, step);
    }

    /** A round of ring_link_internal_process_task. */
    method ProcessInternal() returns (ghost steps: seq<PoolStep>)
      requires Enabled(State(), InternalTakes)
      modifies this
      ensures IsRun(old(State()), steps) && State() == After(old(State()), steps)
          && steps == [InternalTakes, InternalFrees]
    {
      ghost var start := State();
      var b := internal[0];
      handling, internal := [b], internal[1..];
      handling := [];
      FreeRxBuffer(b);
      steps := [InternalTakes, InternalFrees];
      TwoSteps(start, InternalTakes, InternalFrees);
    }

    /** A round of ring_link_netif_process_task. */
    method ProcessNetif() returns (ghost steps: seq<PoolStep>)
      requires Enabled(State(), NetifTakes)
      modifies this
      ensures IsRun(old(State()), steps) && State() == After(old(State()), steps) && steps == [NetifTakes, NetifFrees]
    {
      ghost var start := State();
      var b := netif[0];
      accepting, netif := [b], netif[1..];
      accepting := [];
      FreeRxBuffer(b);
      steps := [NetifTakes, NetifFrees];
      TwoSteps(start, NetifTakes, NetifFrees);
    }
  }

  lemma TwoSteps(p: Pool, first: PoolStep, second: PoolStep)
    requires Enabled(p, first) && Enabled(Next(p, first), second)
    ensures IsRun(p, [first, second]) && After(p, [first, second]) == Next(Next(p, first), second)
  {
    var steps := [first, second];
    assert steps[1..] == [second] && [second][1..] == [];
    assert IsRun(Next(Next(p, first), second), []);
    assert IsRun(Next(p, first), [second]);
    assert After(Next(p, first), [second]) == After(Next(Next(p, first), second), []);
  }
}
