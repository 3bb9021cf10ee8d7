/** The vocabulary of the graph: operations, channels and loop markers. */
module Topology {

  datatype Option<+T> = None | Some(value: T)

  lemma Witness<T>(s: set<T>) returns (x: T)
    requires s != {}
    ensures x in s
  {
    x :| x in s;
  }

  lemma MulLe(a: nat, b: nat, n: nat)
    requires a <= b
    ensures a * n <= b * n
  {
  }

  /** Division leaves one remainder. */
  lemma RemainderIs(t: nat, n: nat, q: nat, r: nat)
    requires r < n && t == q * n + r
    ensures t % n == r
  {
    var p := t / n;
    assert t == p * n + t % n;
    if p > q { MulLe(q + 1, p, n); }
    if p < q { MulLe(p + 1, q, n); }
  }

  /** The next one of `n` in turn. */
  function NextOf(p: int, n: nat): int {
    if p + 1 == n then 0 else p + 1
  }

  lemma TurnsInOrder(t: nat, n: nat)
    requires n > 0
    ensures (t + 1) % n == NextOf(t % n, n)
  {
    var q, r := t / n, t % n;
    assert t == q * n + r;
    if r + 1 == n { RemainderIs(t + 1, n, q + 1, 0); } else { RemainderIs(t + 1, n, q, r + 1); }
  }

  /** Operation and channel names are abstract identities. */
  type Name(==, !new)

  datatype Mode = Hash | RoundRobin | Broadcast

  datatype LoopMode = Synchronous | Asynchronous

  datatype Feedback = Feedback(mode: LoopMode, maxEpochs: int, overflow: Option<Name>)

  /** `from` is None for an external producer, `to` is None for an external reader. */
  datatype Spec = Spec(
    name: Name,
    from: Option<Name>,
    to: Option<Name>,
    mode: Mode,
    partitions: nat,
    materialized: bool,
    retained: bool,
    feedback: Option<Feedback>)
  {
    predicate IsSynchronous() { feedback.Some? && feedback.value.mode == Synchronous }

    predicate IsAsynchronous() { feedback.Some? && feedback.value.mode == Asynchronous }

    predicate IsBroadcast() { mode == Broadcast }

    /** An edge of the graph with every feedback edge removed. */
    predicate IsForward() { from.Some? && to.Some? && feedback.None? }
  }
}
