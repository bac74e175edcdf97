/** First-in first-out queues, one per board, and what taking and broadcasting a message does to them. */
module Fifo {

  /** How many times `m` is in `q`. */
  function Count<T(==)>(q: seq<T>, m: T): nat {
    if q == [] then 0 else (if q[0] == m then 1 else 0) + Count(q[1..], m)
  }

  /** A broadcast reaches every queue but the sender's own. */
  function Broadcast<T>(queues: seq<seq<T>>, src: nat, m: T): (r: seq<seq<T>>)
    ensures |r| == |queues|
    ensures forall i :: 0 <= i < |r| ==> r[i] == if i == src then queues[i] else queues[i] + [m]
  {
    seq(|queues|, i requires 0 <= i < |queues| => if i == src then queues[i] else queues[i] + [m])
  }

  /** The head of one queue is taken. */
  function Pop<T>(queues: seq<seq<T>>, b: nat): (r: seq<seq<T>>)
    requires b < |queues| && queues[b] != []
    ensures |r| == |queues|
    ensures forall i :: 0 <= i < |r| ==> r[i] == if i == b then queues[i][1..] else queues[i]
  {
    queues[b := queues[b][1..]]
  }

  lemma {:induction false} CountAppend<T>(q: seq<T>, m: T, x: T)
    ensures Count(q + [x], m) == Count(q, m) + if x == m then 1 else 0
  {
    if q != [] {
      assert (q + [x])[1..] == q[1..] + [x];
      CountAppend(q[1..], m, x);
    }
  }

  lemma {:induction false} CountZero<T>(q: seq<T>, m: T)
    ensures Count(q, m) == 0 <==> m !in q
  {
    if q != [] { CountZero(q[1..], m); }
  }
}
