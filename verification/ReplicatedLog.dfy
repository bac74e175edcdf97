/** One log, no lost update: the routing tables of a node's boards are all prefixes of one sequence of operations. */
module ReplicatedLog {
  import opened Bits
  import opened Fifo
  import opened NodeSystem
  import opened Roles
  import opened RoutingTables
  import opened Sync
  import opened TokenRing

  // ---------- queues ----------

  /** Messages only a board inside the critical section sends: table copies and provisions. */
  predicate FromHolder(m: Msg) {
    m.Copy? || (m.Event? && m.event.Provision?)
  }

  predicate Quiet(q: seq<Msg>) {
    forall i :: 0 <= i < |q| ==> !FromHolder(q[i])
  }

  /** Nothing that a holder sends is behind `grant`. */
  predicate QuietBehind(q: seq<Msg>, grant: Msg) {
    q == [] || (if q[0] == grant then Quiet(q[1..]) else QuietBehind(q[1..], grant))
  }

  lemma {:induction false} QuietBehindAppend(q: seq<Msg>, grant: Msg, m: Msg)
    requires QuietBehind(q, grant) && (FromHolder(m) ==> Count(q, grant) == 0)
    ensures QuietBehind(q + [m], grant)
  {
    if q != [] {
      assert (q + [m])[1..] == q[1..] + [m];
      if q[0] != grant { QuietBehindAppend(q[1..], grant, m); }
    }
  }

  /** The table version a board ends up with once it has taken everything in its inbox. */
  function Drained(q: seq<Msg>, version: nat): nat {
    if q == [] then version else Drained(q[1..], if q[0].Copy? then q[0].version else version)
  }

  lemma {:induction false} DrainedAppend(q: seq<Msg>, version: nat, m: Msg)
    ensures Drained(q + [m], version) == if m.Copy? then m.version else Drained(q, version)
  {
    if q != [] {
      assert (q + [m])[1..] == q[1..] + [m];
      DrainedAppend(q[1..], if q[0].Copy? then q[0].version else version, m);
    }
  }

  lemma {:induction false} DrainedQuiet(q: seq<Msg>, version: nat)
    requires Quiet(q)
    ensures Drained(q, version) == version
  {
    if q != [] { DrainedQuiet(q[1..], version); }
  }

  /** The copies in a queue never go back to an older version. */
  predicate Ascending(q: seq<Msg>, version: nat) {
    q == [] || (
      if q[0].Copy? then q[0].version >= version && Ascending(q[1..], q[0].version) else Ascending(q[1..], version))
  }

  lemma {:induction false} AscendingAppend(q: seq<Msg>, version: nat, m: Msg)
    requires Ascending(q, version) && (m.Copy? ==> m.version >= Drained(q, version))
    ensures Ascending(q + [m], version)
  {
    if q != [] {
      assert (q + [m])[1..] == q[1..] + [m];
      AscendingAppend(q[1..], if q[0].Copy? then q[0].version else version, m);
    }
  }

  // ---------- what every step keeps ----------

  /** The table after the first `version` operations of the log. */
  predicate IsPrefix(table: Table, version: nat, log: seq<Op>, gateway: U8) {
    version <= |log| && table == Fold(Init(gateway), log[..version])
  }

  predicate CopiesArePrefixes(q: seq<Msg>, log: seq<Op>, gateway: U8) {
    forall i :: 0 <= i < |q| ==> (q[i].Copy? ==> IsPrefix(q[i].table, q[i].version, log, gateway))
  }

  /** A holder's messages reach a board before the grant that follows them. */
  predicate OrderOk(n: Node) {
    && Shape(n)
    && (forall b :: 0 <= b < |n.boards| ==> QuietBehind(n.inbox[b], Mine(ROUTING, b)))
    && (forall b :: 0 <= b < |n.boards| ==> (n.components[ROUTING].token == Held(b) ==> Quiet(n.inbox[b])))
  }

  predicate LogOk(n: Node) {
    && Shape(n)
    && (forall b :: 0 <= b < |n.boards| ==> IsPrefix(n.boards[b].table, n.boards[b].version, n.log, |n.boards|))
    && (forall b :: 0 <= b < |n.boards| ==> CopiesArePrefixes(n.inbox[b], n.log, |n.boards|))
    && (forall b :: 0 <= b < |n.boards| ==> Ascending(n.inbox[b], n.boards[b].version))
    && (forall b :: 0 <= b < |n.boards| ==> Drained(n.inbox[b], n.boards[b].version) == |n.log|)
  }

  // ---------- order ----------

  /** Sending a message that any board may send. */
  lemma SendKeepsOrder(n: Node, src: nat, m: Msg)
    requires OrderOk(n) && !FromHolder(m)
    ensures OrderOk(Send(n, src, m))
  {
    forall b | 0 <= b < |n.boards| ensures QuietBehind(Send(n, src, m).inbox[b], Mine(ROUTING, b)) {
      QuietBehindAppend(n.inbox[b], Mine(ROUTING, b), m);
    }
  }

  /** A holder sends while no grant is on its way. */
  lemma HolderSendKeepsOrder(n: Node, src: nat, m: Msg)
    requires TokenOk(n) && OrderOk(n) && src < |n.boards| && n.components[ROUTING].token == Held(src)
    ensures OrderOk(Send(n, src, m))
  {
    forall b | 0 <= b < |n.boards| ensures QuietBehind(Send(n, src, m).inbox[b], Mine(ROUTING, b)) {
      assert GrantsAt(n.inbox, ROUTING, Held(src));
      QuietBehindAppend(n.inbox[b], Mine(ROUTING, b), m);
    }
  }

  /** Order depends on the inboxes and on who holds the routing token. */
  lemma OrderDependsOn(n: Node, r: Node)
    requires OrderOk(n) && SameShape(n, r) && r.inbox == n.inbox
    requires r.components[ROUTING].token.Held? ==> r.components[ROUTING].token == n.components[ROUTING].token
    ensures OrderOk(r)
  {}

  lemma PopKeepsOrder(n: Node, b: nat)
    requires OrderOk(n) && b < |n.boards| && n.inbox[b] != []
    ensures OrderOk(n.(inbox := Pop(n.inbox, b)))
  {
    if n.inbox[b][0] == Mine(ROUTING, b) { QuietIsQuietBehind(n.inbox[b][1..], Mine(ROUTING, b)); }
  }

  lemma {:induction false} QuietIsQuietBehind(q: seq<Msg>, grant: Msg)
    requires Quiet(q)
    ensures QuietBehind(q, grant)
  {
    if q != [] { QuietIsQuietBehind(q[1..], grant); }
  }

  lemma TakeKeepsOrder(n: Node, b: nat, cs: ComponentId)
    requires OrderOk(n) && b < |n.boards| && n.inbox[b] != [] && n.inbox[b][0] == Mine(cs, b)
    ensures OrderOk(Take(n, b, cs))
  {
    PopKeepsOrder(n, b);
  }

  lemma IssueKeepsOrder(n: Node, cs: ComponentId)
    requires OrderOk(n)
    ensures OrderOk(Issue(n, cs))
  {
    var c := n.components[cs];
    var n1 := PutComponent(n, cs, c.(token := Flying(0), issued := c.issued + 1));
    OrderDependsOn(n, n1);
    SendKeepsOrder(n1, Center(n), Token(Grant(cs, FIRST)));
  }

  lemma RequestKeepsOrder(n: Node, b: nat, cs: ComponentId)
    requires OrderOk(n) && b < |n.boards|
    ensures OrderOk(RequestBy(n, b, cs))
  {
    if b == Center(n) {
      var c := n.components[cs];
      var (slot, issue) := OnRequest(c.slot);
      var dropped := if !issue && slot == c.slot then c.dropped + 1 else c.dropped;
      var n1 := PutComponent(n, cs, c.(slot := slot, handled := c.handled + 1, dropped := dropped));
      OrderDependsOn(n, n1);
      IssueKeepsOrder(n1, cs);
    } else {
      SendKeepsOrder(n, b, Token(Request(cs)));
    }
  }

  lemma PassOnKeepsOrder(n: Node, b: nat, cs: ComponentId)
    requires OrderOk(n) && b < |n.boards|
    ensures OrderOk(PassOn(n, b, cs))
  {
    var c := n.components[cs];
    if b == Center(n) {
      var (slot, issue) := OnRoundEnd(c.slot);
      var n1 := PutComponent(n, cs,
        c.(slot := slot, token := Nowhere, finished := c.finished + [c.current], current := []));
      OrderDependsOn(n, n1);
      IssueKeepsOrder(n1, cs);
    } else {
      var n1 := PutComponent(n, cs, c.(token := Flying(b + 1)));
      OrderDependsOn(n, n1);
      SendKeepsOrder(n1, b, Token(Grant(cs, NextDevice(Orientation(b), |n.boards|))));
    }
  }

  lemma ReceiveKeepsOrder(n: Node, b: nat)
    requires OrderOk(n) && Enabled(n, ReceiveStep(b))
    ensures OrderOk(Receive(n, b))
  {
    var popped := n.(inbox := Pop(n.inbox, b));
    PopKeepsOrder(n, b);
    match n.inbox[b][0] {
      case Token(Grant(cs, destination)) =>
        if destination == Orientation(b) {
          TakeKeepsOrder(n, b, cs);
          if cs == ROUTING { OrderDependsOn(Take(n, b, cs), Receive(n, b)); }
          else { PassOnKeepsOrder(Take(n, b, cs), b, cs); }
        }
      case Token(Request(cs)) => if b == Center(n) { RequestKeepsOrder(popped, b, cs); }
      case Event(ev) =>
        OrderDependsOn(popped, QueueEvent(popped, b, ev));
        RequestKeepsOrder(QueueEvent(popped, b, ev), b, ROUTING);
      case Copy(_, _) => OrderDependsOn(popped, Receive(n, b));
    }
  }

  /** What the head of a script broadcasts, if anything. */
  lemma ActKeepsOrder(n: Node, b: nat)
    requires TokenOk(n) && InsideOk(n) && OrderOk(n) && Enabled(n, ActStep(b))
    ensures OrderOk(Act(n, b))
  {
    var sent := match n.boards[b].script[0]
      case Edit(op) => Copy(Apply(n.boards[b].table, op), |n.log| + 1)
      case Refresh => Copy(n.boards[b].table, n.boards[b].version)
      case Tell(ev) => Event(ev)
      case ToPeer(_) => Token(Request(ROUTING));
    HolderSendKeepsOrder(n, b, sent);
    OrderDependsOn(if n.boards[b].script[0].ToPeer? then n else Send(n, b, sent), Act(n, b));
  }

  lemma StepKeepsOrder(n: Node, step: Step)
    requires TokenOk(n) && InsideOk(n) && OrderOk(n) && Enabled(n, step)
    ensures OrderOk(Next(n, step))
  {
    match step {
      case ReceiveStep(b) => ReceiveKeepsOrder(n, b);
      case DispatchStep(b) => OrderDependsOn(n, Dispatch(n, b));
      case ActStep(b) => ActKeepsOrder(n, b);
      case ExitStep(b) => OrderDependsOn(n, Leave(n, b)); PassOnKeepsOrder(Leave(n, b), b, ROUTING);
      case PeerStep(b, ev) => OrderDependsOn(n, PeerArrives(n, b, ev));
      case OwedStep(b, id) => OrderDependsOn(n, Pay(n, b, id)); RequestKeepsOrder(Pay(n, b, id), b, ROUTING);
      case RequestStep(b, cs) => RequestKeepsOrder(n, b, cs);
      case TickStep(dt) => TickKeepsOrder(n, dt);
    }
  }

  lemma TickKeepsOrder(n: Node, dt: U32)
    requires OrderOk(n) && Enabled(n, TickStep(dt))
    ensures OrderOk(TickCenter(n, dt))
  {
    var m := Event(GatewayWinner(n.boards[Center(n)].local.role.root.network, 1));
    SendKeepsOrder(n, Center(n), m);
    var fires := Tick(n.boards[Center(n)].local.role.root, dt).1;
    OrderDependsOn(if fires then Send(n, Center(n), m) else n, TickCenter(n, dt));
  }

  // ---------- the log ----------

  /** The log, the tables and the queued copies are as before. */
  lemma LogDependsOn(n: Node, r: Node)
    requires LogOk(n) && SameShape(n, r) && r.log == n.log && r.inbox == n.inbox
    requires forall b :: 0 <= b < |n.boards| ==>
               r.boards[b].table == n.boards[b].table && r.boards[b].version == n.boards[b].version
    ensures LogOk(r)
  {}

  /** Sending anything but a copy. */
  lemma SendKeepsLog(n: Node, src: nat, m: Msg)
    requires LogOk(n) && !m.Copy?
    ensures LogOk(Send(n, src, m))
  {
    forall b | 0 <= b < |n.boards|
      ensures Ascending(Send(n, src, m).inbox[b], n.boards[b].version)
              && Drained(Send(n, src, m).inbox[b], n.boards[b].version) == |n.log|
    {
      AscendingAppend(n.inbox[b], n.boards[b].version, m);
      DrainedAppend(n.inbox[b], n.boards[b].version, m);
    }
  }

  lemma RequestKeepsLog(n: Node, b: nat, cs: ComponentId)
    requires LogOk(n) && b < |n.boards|
    ensures LogOk(RequestBy(n, b, cs))
  {
    SendKeepsLog(n, b, Token(Request(cs)));
    SendKeepsLog(n, b, Token(Grant(cs, FIRST)));
    var r := RequestBy(n, b, cs);
    LogDependsOn(if r.inbox == n.inbox then n else if b == Center(n) then Send(n, b, Token(Grant(cs, FIRST)))
                 else Send(n, b, Token(Request(cs))), r);
  }

  lemma PassOnKeepsLog(n: Node, b: nat, cs: ComponentId)
    requires LogOk(n) && b < |n.boards|
    ensures LogOk(PassOn(n, b, cs))
  {
    var m := Token(Grant(cs, if b == Center(n) then FIRST else NextDevice(Orientation(b), |n.boards|)));
    SendKeepsLog(n, b, m);
    var r := PassOn(n, b, cs);
    LogDependsOn(if r.inbox == n.inbox then n else Send(n, b, m), r);
  }

  /** Popping a copy makes it the board's table; popping anything else changes nothing. */
  lemma PopKeepsLog(n: Node, b: nat, r: Node)
    requires LogOk(n) && b < |n.boards| && n.inbox[b] != [] && SameShape(n, r) && r.log == n.log
    requires r.inbox == Pop(n.inbox, b)
    requires forall a :: 0 <= a < |n.boards| && a != b ==>
               r.boards[a].table == n.boards[a].table && r.boards[a].version == n.boards[a].version
    requires var m := n.inbox[b][0];
             && r.boards[b].table == (if m.Copy? then m.table else n.boards[b].table)
             && r.boards[b].version == (if m.Copy? then m.version else n.boards[b].version)
    ensures LogOk(r)
  {}

  lemma GrantKeepsLog(n: Node, b: nat, cs: ComponentId)
    requires LogOk(n) && Enabled(n, ReceiveStep(b)) && n.inbox[b][0] == Mine(cs, b)
    ensures LogOk(Receive(n, b))
  {
    PopKeepsLog(n, b, Take(n, b, cs));
    if cs == ROUTING { LogDependsOn(Take(n, b, cs), Receive(n, b)); } else { PassOnKeepsLog(Take(n, b, cs), b, cs); }
  }

  lemma EnqueueKeepsLog(n: Node, b: nat, ev: SiblEvent)
    requires LogOk(n) && b < |n.boards|
    ensures LogOk(Enqueue(n, b, ev))
  {
    LogDependsOn(n, QueueEvent(n, b, ev));
    RequestKeepsLog(QueueEvent(n, b, ev), b, ROUTING);
    LogDependsOn(n, n.(panicked := true));
  }

  lemma ReceiveKeepsLog(n: Node, b: nat)
    requires LogOk(n) && Enabled(n, ReceiveStep(b))
    ensures LogOk(Receive(n, b))
  {
    var m, popped := n.inbox[b][0], n.(inbox := Pop(n.inbox, b));
    if m.Copy? {
      PopKeepsLog(n, b, Receive(n, b));
    } else {
      PopKeepsLog(n, b, popped);
      match m {
        case Token(Grant(cs, destination)) => if destination == Orientation(b) { GrantKeepsLog(n, b, cs); }
        case Token(Request(cs)) => RequestKeepsLog(popped, b, cs);
        case Event(ev) => EnqueueKeepsLog(popped, b, ev);
      }
    }
  }

  /** A board inside the critical section has the whole log in its table. */
  lemma HolderIsCurrent(n: Node, b: nat)
    requires OrderOk(n) && LogOk(n) && b < |n.boards| && n.components[ROUTING].token == Held(b)
    ensures n.boards[b].version == |n.log| && n.boards[b].table == Fold(Init(|n.boards|), n.log)
  {
    DrainedQuiet(n.inbox[b], n.boards[b].version);
    assert n.log[..|n.log|] == n.log;
  }

  lemma LongerLogKeepsPrefix(table: Table, version: nat, log: seq<Op>, op: Op, gateway: U8)
    requires IsPrefix(table, version, log, gateway)
    ensures IsPrefix(table, version, log + [op], gateway)
  {
    assert (log + [op])[..version] == log[..version];
  }

  /** Sending a copy of the holder's table, which holds the whole log. */
  lemma CopyKeepsInbox(q: seq<Msg>, version: nat, log: seq<Op>, longer: seq<Op>, gateway: U8, table: Table)
    requires CopiesArePrefixes(q, log, gateway) && Ascending(q, version) && Drained(q, version) == |log|
    requires longer == log || (|longer| == |log| + 1 && longer[..|log|] == log)
    requires IsPrefix(table, |longer|, longer, gateway)
    ensures var r := q + [Copy(table, |longer|)];
            CopiesArePrefixes(r, longer, gateway) && Ascending(r, version) && Drained(r, version) == |longer|
  {
    var m := Copy(table, |longer|);
    forall i | 0 <= i < |q| && q[i].Copy? ensures IsPrefix(q[i].table, q[i].version, longer, gateway) {
      assert longer[..q[i].version] == log[..q[i].version];
    }
    AscendingAppend(q, version, m);
    DrainedAppend(q, version, m);
  }

  /** The holder edits its table and broadcasts it. */
  lemma EditKeepsLog(n: Node, b: nat, op: Op)
    requires InsideOk(n) && OrderOk(n) && LogOk(n) && Enabled(n, ActStep(b)) && n.boards[b].script[0] == Edit(op)
    ensures LogOk(Act(n, b))
  {
    HolderIsCurrent(n, b);
    var r, size := Act(n, b), |n.boards|;
    var longer := n.log + [op];
    var table := Apply(n.boards[b].table, op);
    assert longer[..|longer|] == longer && longer[..|longer| - 1] == n.log;
    assert IsPrefix(table, |longer|, longer, size);
    forall a | 0 <= a < size
      ensures IsPrefix(r.boards[a].table, r.boards[a].version, r.log, size)
          && CopiesArePrefixes(r.inbox[a], r.log, size)
              && Ascending(r.inbox[a], r.boards[a].version) && Drained(r.inbox[a], r.boards[a].version) == |r.log|
    {
      if a == b {
        QuietHasNoCopies(n.inbox[b], |longer|, longer, size);
      } else {
        LongerLogKeepsPrefix(n.boards[a].table, n.boards[a].version, n.log, op, size);
        CopyKeepsInbox(n.inbox[a], n.boards[a].version, n.log, longer, size, table);
      }
    }
  }

  lemma {:induction false} QuietHasNoCopies(q: seq<Msg>, version: nat, log: seq<Op>, gateway: U8)
    requires Quiet(q)
    ensures CopiesArePrefixes(q, log, gateway) && Ascending(q, version) && Drained(q, version) == version
  {
    if q != [] { QuietHasNoCopies(q[1..], version, log, gateway); }
  }

  lemma RefreshKeepsLog(n: Node, b: nat)
    requires InsideOk(n) && OrderOk(n) && LogOk(n) && Enabled(n, ActStep(b)) && n.boards[b].script[0].Refresh?
    ensures LogOk(Act(n, b))
  {
    HolderIsCurrent(n, b);
    var r, size := Act(n, b), |n.boards|;
    forall a | 0 <= a < size && a != b
      ensures CopiesArePrefixes(r.inbox[a], n.log, size)
              && Ascending(r.inbox[a], r.boards[a].version) && Drained(r.inbox[a], r.boards[a].version) == |n.log|
    {
      CopyKeepsInbox(n.inbox[a], n.boards[a].version, n.log, n.log, size, n.boards[b].table);
    }
  }

  lemma ActKeepsLog(n: Node, b: nat)
    requires InsideOk(n) && OrderOk(n) && LogOk(n) && Enabled(n, ActStep(b))
    ensures LogOk(Act(n, b))
  {
    match n.boards[b].script[0] {
      case Edit(op) => EditKeepsLog(n, b, op);
      case Refresh => RefreshKeepsLog(n, b);
      case Tell(ev) => SendKeepsLog(n, b, Event(ev)); LogDependsOn(Send(n, b, Event(ev)), Act(n, b));
      case ToPeer(_) => LogDependsOn(n, Act(n, b));
    }
  }

  lemma TickKeepsLog(n: Node, dt: U32)
    requires LogOk(n) && Enabled(n, TickStep(dt))
    ensures LogOk(TickCenter(n, dt))
  {
    var m := Event(GatewayWinner(n.boards[Center(n)].local.role.root.network, 1));
    SendKeepsLog(n, Center(n), m);
    var fires := Tick(n.boards[Center(n)].local.role.root, dt).1;
    LogDependsOn(if fires then Send(n, Center(n), m) else n, TickCenter(n, dt));
  }

  lemma DispatchKeepsLog(n: Node, b: nat)
    requires LogOk(n) && Enabled(n, DispatchStep(b))
    ensures LogOk(Dispatch(n, b))
  {
    LogDependsOn(n, Dispatch(n, b));
  }

  lemma ExitKeepsLog(n: Node, b: nat)
    requires LogOk(n) && Enabled(n, ExitStep(b))
    ensures LogOk(Exit(n, b))
  {
    LogDependsOn(n, Leave(n, b));
    PassOnKeepsLog(Leave(n, b), b, ROUTING);
  }

  lemma PeerKeepsLog(n: Node, b: nat, ev: PeerEvent)
    requires LogOk(n) && Enabled(n, PeerStep(b, ev))
    ensures LogOk(PeerArrives(n, b, ev))
  {
    LogDependsOn(n, PeerArrives(n, b, ev));
  }

  lemma OwedKeepsLog(n: Node, b: nat, id: nat)
    requires LogOk(n) && Enabled(n, OwedStep(b, id))
    ensures LogOk(RequestOwed(n, b, id))
  {
    LogDependsOn(n, Pay(n, b, id));
    RequestKeepsLog(Pay(n, b, id), b, ROUTING);
  }

  lemma StepKeepsLog(n: Node, step: Step)
    requires InsideOk(n) && OrderOk(n) && LogOk(n) && Enabled(n, step)
    ensures LogOk(Next(n, step))
  {
    match step {
      case ReceiveStep(b) => ReceiveKeepsLog(n, b);
      case DispatchStep(b) => DispatchKeepsLog(n, b);
      case ActStep(b) => ActKeepsLog(n, b);
      case ExitStep(b) => ExitKeepsLog(n, b);
      case PeerStep(b, ev) => PeerKeepsLog(n, b, ev);
      case OwedStep(b, id) => OwedKeepsLog(n, b, id);
      case RequestStep(b, cs) => RequestKeepsLog(n, b, cs);
      case TickStep(dt) => TickKeepsLog(n, dt);
    }
  }

  // ---------- runs ----------

  predicate AllOk(n: Node) {
    TokenOk(n) && InsideOk(n) && OrderOk(n) && LogOk(n)
  }

  lemma StepKeepsAll(n: Node, step: Step)
    requires AllOk(n) && Enabled(n, step)
    ensures AllOk(Next(n, step))
  {
    StepKeepsToken(n, step);
    StepKeepsInside(n, step);
    StepKeepsOrder(n, step);
    StepKeepsLog(n, step);
  }

  lemma StartIsAllOk(size: nat, center: Role)
    requires 2 <= size <= 7
    ensures AllOk(Start(size, center))
  {
    StartIsOk(size, center);
  }

  lemma {:induction false} RunKeepsAll(n: Node, steps: seq<Step>)
    requires AllOk(n) && IsRun(n, steps)
    ensures AllOk(After(n, steps))
    decreases |steps|
  {
    if steps != [] {
      StepKeepsAll(n, steps[0]);
      RunKeepsAll(Next(n, steps[0]), steps[1..]);
    }
  }

  /** No copy is on its way to any board. */
  predicate NoCopyUndelivered(n: Node) {
    forall b, i :: 0 <= b < |n.inbox| && 0 <= i < |n.inbox[b]| ==> !n.inbox[b][i].Copy?
  }

  lemma {:induction false} DrainedWithoutCopies(q: seq<Msg>, version: nat)
    requires forall i :: 0 <= i < |q| ==> !q[i].Copy?
    ensures Drained(q, version) == version
  {
    if q != [] { DrainedWithoutCopies(q[1..], version); }
  }

  /** The table is the fold of some prefix of the log. */
  ghost predicate FoldsAPrefix(table: Table, log: seq<Op>, gateway: U8) {
    exists version :: IsPrefix(table, version, log, gateway)
  }

  lemma BoardOnLog(n: Node, b: nat)
    requires AllOk(n) && b < |n.boards|
    ensures FoldsAPrefix(n.boards[b].table, n.log, |n.boards|)
    ensures n.boards[b].inside || NoCopyUndelivered(n) ==> n.boards[b].table == Fold(Init(|n.boards|), n.log)
  {
    assert IsPrefix(n.boards[b].table, n.boards[b].version, n.log, |n.boards|);
    assert n.log[..|n.log|] == n.log;
    if n.boards[b].inside { HolderIsCurrent(n, b); }
    if NoCopyUndelivered(n) { DrainedWithoutCopies(n.inbox[b], n.boards[b].version); }
  }

  /** In every reachable state one log explains all tables: each board's table is the fold of a prefix, a board inside
      the critical section has folded the whole log, and once no copy is undelivered every table is the whole fold. */
  lemma OneLog(size: nat, center: Role, steps: seq<Step>, b: nat)
    requires 2 <= size <= 7 && b < size && IsRun(Start(size, center), steps)
    ensures var n := After(Start(size, center), steps);
            && FoldsAPrefix(n.boards[b].table, n.log, size)
            && (n.boards[b].inside || NoCopyUndelivered(n) ==> n.boards[b].table == Fold(Init(size), n.log))
  {
    StartIsAllOk(size, center);
    RunKeepsAll(Start(size, center), steps);
    BoardOnLog(After(Start(size, center), steps), b);
  }

  /** Taking a message only changes a version if it is a copy. */
  lemma ReceiveChanges(n: Node, a: nat, b: nat)
    requires Enabled(n, ReceiveStep(a)) && b < |n.boards|
    ensures var r, m := Receive(n, a), n.inbox[a][0];
            && r.log == n.log
            && r.boards[b].version == if a == b && m.Copy? then m.version else n.boards[b].version
  {}

  lemma ReceiveAdvances(n: Node, a: nat, b: nat)
    requires LogOk(n) && Enabled(n, ReceiveStep(a)) && b < |n.boards|
    ensures n.log == Receive(n, a).log && n.boards[b].version <= Receive(n, a).boards[b].version
  {
    ReceiveChanges(n, a, b);
    assert Ascending(n.inbox[a], n.boards[a].version);
  }

  /** Only an edit touches the log and a version, and only the acting board's. */
  lemma ActEdits(n: Node, a: nat)
    requires Enabled(n, ActStep(a))
    ensures var r := Act(n, a);
            if n.boards[a].script[0].Edit?
            then r.log == n.log + [n.boards[a].script[0].op] && r.boards[a].version == |n.log| + 1
            else r.log == n.log && r.boards[a].version == n.boards[a].version
    ensures forall b :: 0 <= b < |n.boards| && b != a ==> Act(n, a).boards[b] == n.boards[b]
  {}

  lemma ActAdvances(n: Node, a: nat, b: nat)
    requires AllOk(n) && Enabled(n, ActStep(a)) && b < |n.boards|
    ensures n.log <= Act(n, a).log && n.boards[b].version <= Act(n, a).boards[b].version
  {
    ActEdits(n, a);
    HolderIsCurrent(n, a);
  }

  lemma OtherStepsLeaveLog(n: Node, step: Step, b: nat)
    requires Enabled(n, step) && !step.ReceiveStep? && !step.ActStep? && b < |n.boards|
    ensures Next(n, step).log == n.log && Next(n, step).boards[b].version == n.boards[b].version
  {}

  lemma StepAdvances(n: Node, step: Step, b: nat)
    requires AllOk(n) && Enabled(n, step) && b < |n.boards|
    ensures n.log <= Next(n, step).log && n.boards[b].version <= Next(n, step).boards[b].version
  {
    match step {
      case ReceiveStep(a) => ReceiveAdvances(n, a, b);
      case ActStep(a) => ActAdvances(n, a, b);
      case _ => OtherStepsLeaveLog(n, step, b);
    }
  }

  /** No update is lost: a run only extends the log, and never takes a board's table back to an older version of it. */
  lemma {:induction false} TablesOnlyAdvance(n: Node, steps: seq<Step>, b: nat)
    requires AllOk(n) && IsRun(n, steps) && b < |n.boards|
    ensures n.log <= After(n, steps).log && n.boards[b].version <= After(n, steps).boards[b].version
    decreases |steps|
  {
    if steps != [] {
      StepKeepsAll(n, steps[0]);
      StepAdvances(n, steps[0], b);
      TablesOnlyAdvance(Next(n, steps[0]), steps[1..], b);
    }
  }
}
