/** The node never gets stuck, as its inboxes are unbounded here and its broadcasts do not wait: while anything is on
    its way, queued or being served, some board can take a step. Termination.dfy shows that such steps come to an
    end. */
module Progress {
  import opened Bits
  import opened Fifo
  import opened NodeSystem
  import opened Provisioning
  import opened Roles
  import opened Sync
  import opened TokenRing
  import opened WakeUp

  /** Steps the node takes by itself, without new peer events, requests or ticks. */
  predicate IsInternal(step: Step) {
    step.ReceiveStep? || step.DispatchStep? || step.ActStep? || step.ExitStep? || step.OwedStep?
  }

  ghost predicate Stuck(n: Node) {
    forall step: Step :: IsInternal(step) ==> !Enabled(n, step)
  }

  /** No board has dispatched more events than it holds. */
  predicate CursorsInRange(n: Node) {
    Shape(n) && forall b :: 0 <= b < |n.boards| ==> n.boards[b].done <= Total(n.boards[b])
  }

  lemma CursorsDependOn(n: Node, r: Node)
    requires CursorsInRange(n) && SameShape(n, r)
    requires forall b :: 0 <= b < |n.boards| ==>
               || r.boards[b].done == 0
               || (r.boards[b].done == n.boards[b].done && Total(r.boards[b]) >= Total(n.boards[b]))
    ensures CursorsInRange(r)
  {}

  /** Taking a message queues an event at most, and a board that enters starts at its first event. */
  lemma ReceiveMovesCursor(n: Node, b: nat, a: nat)
    requires Enabled(n, ReceiveStep(b)) && a < |n.boards|
    ensures var board, next := n.boards[a], Receive(n, b).boards[a];
            next.done == 0 || (next.done == board.done && Total(next) >= Total(board))
  {}

  lemma ReceiveKeepsCursors(n: Node, b: nat)
    requires CursorsInRange(n) && Enabled(n, ReceiveStep(b))
    ensures CursorsInRange(Receive(n, b))
  {
    forall a | 0 <= a < |n.boards|
      ensures Receive(n, b).boards[a].done == 0
              || (Receive(n, b).boards[a].done == n.boards[a].done
                && Total(Receive(n, b).boards[a]) >= Total(n.boards[a]))
    {
      ReceiveMovesCursor(n, b, a);
    }
    CursorsDependOn(n, Receive(n, b));
  }

  lemma ActKeepsCursors(n: Node, b: nat)
    requires CursorsInRange(n) && Enabled(n, ActStep(b))
    ensures CursorsInRange(Act(n, b))
  {
    CursorsDependOn(n, Act(n, b));
  }

  lemma TickKeepsCursors(n: Node, dt: U32)
    requires CursorsInRange(n) && Enabled(n, TickStep(dt))
    ensures CursorsInRange(TickCenter(n, dt))
  {
    CursorsDependOn(n, TickCenter(n, dt));
  }

  lemma StepKeepsCursors(n: Node, step: Step)
    requires CursorsInRange(n) && Enabled(n, step)
    ensures CursorsInRange(Next(n, step))
  {
    match step {
      case ReceiveStep(b) => ReceiveKeepsCursors(n, b);
      case DispatchStep(b) =>
      case ActStep(b) => ActKeepsCursors(n, b);
      case ExitStep(b) => CursorsDependOn(n, Exit(n, b));
      case PeerStep(b, ev) => CursorsDependOn(n, PeerArrives(n, b, ev));
      case OwedStep(b, id) => CursorsDependOn(n, RequestOwed(n, b, id));
      case RequestStep(b, cs) => CursorsDependOn(n, RequestBy(n, b, cs));
      case TickStep(dt) => TickKeepsCursors(n, dt);
    }
  }

  lemma {:induction false} RunKeepsCursors(n: Node, steps: seq<Step>)
    requires CursorsInRange(n) && IsRun(n, steps)
    ensures CursorsInRange(After(n, steps))
    decreases |steps|
  {
    if steps != [] {
      StepKeepsCursors(n, steps[0]);
      RunKeepsCursors(Next(n, steps[0]), steps[1..]);
    }
  }

  lemma StuckIsQuiet(n: Node, b: nat)
    requires CursorsInRange(n) && b < |n.boards| && Stuck(n)
    ensures !n.boards[b].inside && n.inbox[b] == [] && n.boards[b].owed == {}
  {
    assert !Enabled(n, ActStep(b)) && !Enabled(n, DispatchStep(b)) && !Enabled(n, ExitStep(b));
    assert !Enabled(n, ReceiveStep(b));
    if n.boards[b].owed != {} {
      var id :| id in n.boards[b].owed;
      assert Enabled(n, OwedStep(b, id));
    }
  }

  /** With all inboxes empty and no one inside, no component has its token out. */
  lemma NoTokenLeft(n: Node, cs: ComponentId)
    requires TokenOk(n) && InsideOk(n)
    requires forall b :: 0 <= b < |n.boards| ==> !n.boards[b].inside && n.inbox[b] == []
    ensures n.components[cs].token == Nowhere && !n.components[cs].slot.tokenOut && n.components[cs].slot.pending == 0
  {
    assert ComponentOk(n.components[cs], |n.boards|);
    forall b | 0 <= b < |n.boards| ensures Count(n.inbox[b], Mine(cs, b)) == 0 {}
  }

  lemma StuckIsAtRest(n: Node)
    requires TokenOk(n) && InsideOk(n) && NoneForgotten(n) && CursorsInRange(n) && Stuck(n)
    ensures AtRest(n)
    ensures forall cs: ComponentId :: !n.components[cs].slot.tokenOut && n.components[cs].slot.pending == 0
  {
    forall b | 0 <= b < |n.boards| ensures !n.boards[b].inside && n.inbox[b] == [] && n.boards[b].owed == {} {
      StuckIsQuiet(n, b);
    }
    forall cs: ComponentId ensures !n.components[cs].slot.tokenOut && n.components[cs].slot.pending == 0 {
      NoTokenLeft(n, cs);
    }
    NoTokenLeft(n, ROUTING);
    forall b | 0 <= b < |n.boards| ensures n.boards[b].internal == [] && n.boards[b].external == [] {
      assert !Awaited(n, b);
      NothingOwedIsEmpty(n.boards[b]);
    }
  }

  lemma NothingOwedIsEmpty(board: Board)
    requires AllOwed(board)
    ensures board.owed == {} ==> board.internal == [] && board.external == []
  {
    if board.internal != [] { assert board.internal[0].id in board.owed; }
    if board.external != [] { assert board.external[0].id in board.owed; }
  }

  /** In every reachable state in which no board can take a step by itself, every queue and inbox is empty and no
      token is out, for any component: no event is ever stranded, even after the leader's counter has dropped
      requests. */
  lemma NoEventIsStranded(size: nat, center: Role, steps: seq<Step>)
    requires 2 <= size <= 7 && IsRun(Start(size, center), steps) && Stuck(After(Start(size, center), steps))
    ensures var n := After(Start(size, center), steps);
            AtRest(n) && forall cs: ComponentId :: !n.components[cs].slot.tokenOut && n.components[cs].slot.pending == 0
  {
    var start := Start(size, center);
    StartIsOk(size, center);
    forall b | 0 <= b < size ensures start.boards[b].done == 0 {}
    RunForgetsNone(start, steps);
    RunKeepsToken(start, steps);
    RunKeepsCursors(start, steps);
    StuckIsAtRest(After(start, steps));
  }
}
