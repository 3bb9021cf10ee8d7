/** What combining records by key means, and when a redelivery leaves the result alone. */
module Combining {
  import opened Topology

  type Key(==, !new)

  datatype Combine = Sum | Min | Max | Count

  /** A value is a number, or something the combining functions do not take. */
  datatype Value = Number(n: int) | Other(bytes: nat)

  datatype Rec = Rec(key: Key, value: Value, epoch: int)

  /** The channel's function on two numbers; counts add up. */
  ghost function Op(mode: Combine, a: int, b: int): int {
    match mode
    case Sum => a + b
    case Count => a + b
    case Min => if b < a then b else a
    case Max => if b > a then b else a
  }

  /** One more number for the one held so far. */
  method Combined(mode: Combine, held: int, v: int) returns (n: int)
    ensures n == Op(mode, held, v)
  {
    n := held;
    match mode {
      case Sum => n := n + v;
      case Count => n := n + v;
      case Min => if v < n { n := v; }
      case Max => if v > n { n := v; }
    }
  }

  ghost function Plus(mode: Combine, a: Option<int>, b: int): Option<int> {
    if a.None? then Some(b) else Some(Op(mode, a.value, b))
  }

  /** What a consumer computes for one key from the records it gets. */
  ghost function Received(mode: Combine, recs: seq<Rec>, key: Key): Option<int> {
    if recs == [] then None
    else
      var before, r := Received(mode, recs[..|recs| - 1], key), recs[|recs| - 1];
      if r.key == key && r.value.Number? then Plus(mode, before, r.value.n) else before
  }

  /** What the emitted values mean for one key: Count ignores them and counts. */
  ghost function Meant(mode: Combine, recs: seq<Rec>, key: Key): Option<int> {
    if recs == [] then None
    else
      var before, r := Meant(mode, recs[..|recs| - 1], key), recs[|recs| - 1];
      if r.key != key then before
      else if mode == Count then Plus(mode, before, 1)
      else if r.value.Number? then Plus(mode, before, r.value.n)
      else before
  }

  lemma ReceivedNext(mode: Combine, recs: seq<Rec>, r: Rec, key: Key)
    ensures Received(mode, recs + [r], key) ==
      if r.key == key && r.value.Number? then Plus(mode, Received(mode, recs, key), r.value.n) else Received(mode, recs, key)
  {
    assert (recs + [r])[..|recs|] == recs;
  }

  lemma MeantNext(mode: Combine, recs: seq<Rec>, r: Rec, key: Key)
    ensures Meant(mode, recs + [r], key) ==
      if r.key != key then Meant(mode, recs, key)
      else if mode == Count then Plus(mode, Meant(mode, recs, key), 1)
      else if r.value.Number? then Plus(mode, Meant(mode, recs, key), r.value.n)
      else Meant(mode, recs, key)
  {
    assert (recs + [r])[..|recs|] == recs;
  }

  lemma PlusExchanges(mode: Combine, a: Option<int>, b: int, c: int)
    ensures Plus(mode, Plus(mode, a, b), c) == Plus(mode, Plus(mode, a, c), b)
    ensures Plus(mode, a, Op(mode, b, c)) == Plus(mode, Plus(mode, a, b), c)
  {
  }

  /** Folding a value into a record anywhere in the list folds it into the result of that key, and of no other. */
  lemma {:induction false} FoldedIn(mode: Combine, recs: seq<Rec>, at: nat, v: int, key: Key)
    requires at < |recs| && recs[at].value.Number?
    ensures var more := recs[at := recs[at].(value := Number(Op(mode, recs[at].value.n, v)))];
      Received(mode, more, key) == if recs[at].key == key then Plus(mode, Received(mode, recs, key), v) else Received(mode, recs, key)
  {
    var k := |recs| - 1;
    var more := recs[at := recs[at].(value := Number(Op(mode, recs[at].value.n, v)))];
    var before := Received(mode, recs[..k], key);
    if at == k {
      assert more[..k] == recs[..k];
      PlusExchanges(mode, before, recs[at].value.n, v);
    } else {
      FoldedIn(mode, recs[..k], at, v, key);
      assert more[..k] == recs[..k][at := more[at]];
      if recs[k].key == key && recs[k].value.Number? { PlusExchanges(mode, before, recs[k].value.n, v); }
    }
  }

  // --- what the results are, as numbers -----------------------------------------------------------

  /** The numbers of the records of one key, in order. */
  ghost function Numbers(recs: seq<Rec>, key: Key): seq<int> {
    if recs == [] then []
    else
      var r := recs[|recs| - 1];
      Numbers(recs[..|recs| - 1], key) + (if r.key == key && r.value.Number? then [r.value.n] else [])
  }

  /** How many records have the key. */
  ghost function Times(recs: seq<Rec>, key: Key): nat {
    if recs == [] then 0 else Times(recs[..|recs| - 1], key) + (if recs[|recs| - 1].key == key then 1 else 0)
  }

  ghost function SumOf(ns: seq<int>): int {
    if ns == [] then 0 else SumOf(ns[..|ns| - 1]) + ns[|ns| - 1]
  }

  ghost predicate IsLeast(n: int, ns: seq<int>) {
    n in ns && forall m | m in ns :: n <= m
  }

  ghost predicate IsGreatest(n: int, ns: seq<int>) {
    n in ns && forall m | m in ns :: m <= n
  }

  /** The least, the greatest or the sum of the numbers, if there are any. */
  ghost predicate IsResult(mode: Combine, ns: seq<int>, result: Option<int>) {
    && (result.None? <==> ns == [])
    && (result.Some? && mode == Min ==> IsLeast(result.value, ns))
    && (result.Some? && mode == Max ==> IsGreatest(result.value, ns))
    && (result.Some? && (mode == Sum || mode == Count) ==> result.value == SumOf(ns))
  }

  lemma ResultNext(mode: Combine, ns: seq<int>, before: Option<int>, n: int)
    requires IsResult(mode, ns, before)
    ensures IsResult(mode, ns + [n], Plus(mode, before, n))
  {
    assert (ns + [n])[..|ns|] == ns;
  }

  /** A consumer of Min gets the least of the numbers of a key, of Max the greatest, of Sum and Count their sum. */
  lemma {:induction false} ReceivedIsResult(mode: Combine, recs: seq<Rec>, key: Key)
    ensures IsResult(mode, Numbers(recs, key), Received(mode, recs, key))
  {
    if recs != [] {
      var k := |recs| - 1;
      ReceivedIsResult(mode, recs[..k], key);
      assert Numbers(recs[..k], key) + [] == Numbers(recs[..k], key);
      if recs[k].key == key && recs[k].value.Number? {
        ResultNext(mode, Numbers(recs[..k], key), Received(mode, recs[..k], key), recs[k].value.n);
      }
    }
  }

  /** Emitted values mean the least, the greatest or the sum of their numbers; Count means how many there are. */
  lemma {:induction false} MeantIsResult(mode: Combine, recs: seq<Rec>, key: Key)
    ensures mode != Count ==> IsResult(mode, Numbers(recs, key), Meant(mode, recs, key))
    ensures Meant(Count, recs, key) == if Times(recs, key) == 0 then None else Some(Times(recs, key))
  {
    if recs != [] {
      var k := |recs| - 1;
      MeantIsResult(mode, recs[..k], key);
      assert Numbers(recs[..k], key) + [] == Numbers(recs[..k], key);
      if recs[k].key == key && recs[k].value.Number? && mode != Count {
        ResultNext(mode, Numbers(recs[..k], key), Meant(mode, recs[..k], key), recs[k].value.n);
      }
    }
  }

  // --- redelivery --------------------------------------------------------------------------------

  /** Applying a combined record more than once yields the same result. */
  ghost predicate Idempotent(mode: Combine) {
    mode == Min || mode == Max
  }

  /** `r` changes nothing in a result that already contains it. */
  lemma {:induction false} AbsorbsAgain(mode: Combine, recs: seq<Rec>, r: Rec)
    requires Idempotent(mode) && r in recs && r.value.Number?
    ensures Plus(mode, Received(mode, recs, r.key), r.value.n) == Received(mode, recs, r.key)
  {
    var k := |recs| - 1;
    if recs[k] != r {
      assert r in recs[..k];
      AbsorbsAgain(mode, recs[..k], r);
      if recs[k].key == r.key && recs[k].value.Number? {
        PlusExchanges(mode, Received(mode, recs[..k], r.key), recs[k].value.n, r.value.n);
      }
    }
  }

  /** The result of Min and Max is a number that was received for the key and that absorbs all of them. */
  ghost predicate Extreme(mode: Combine, recs: seq<Rec>, key: Key, result: Option<int>) {
    && (result.Some? ==> exists r :: r in recs && r.key == key && r.value == Number(result.value))
    && (forall r | r in recs && r.key == key && r.value.Number? :: result.Some? && Op(mode, result.value, r.value.n) == result.value)
  }

  lemma {:induction false} ReceivedIsExtreme(mode: Combine, recs: seq<Rec>, key: Key)
    requires Idempotent(mode)
    ensures Extreme(mode, recs, key, Received(mode, recs, key))
  {
    if recs != [] {
      var k := |recs| - 1;
      ReceivedIsExtreme(mode, recs[..k], key);
      assert recs == recs[..k] + [recs[k]];
      assert recs[k] in recs;
    }
  }

  /**
   For Min and Max the results depend on which records were received, not on how
   often or in what order: any redelivery, at any point, leaves them unchanged.
   */
  lemma RedeliveryAbsorbed(mode: Combine, once: seq<Rec>, redelivered: seq<Rec>, key: Key)
    requires Idempotent(mode) && forall r :: r in once <==> r in redelivered
    ensures Received(mode, redelivered, key) == Received(mode, once, key)
  {
    ReceivedIsExtreme(mode, once, key);
    ReceivedIsExtreme(mode, redelivered, key);
    var a, b := Received(mode, once, key), Received(mode, redelivered, key);
    if a.Some? {
      var r :| r in once && r.key == key && r.value == Number(a.value);
      assert r in redelivered;
    }
    if b.Some? {
      var r :| r in redelivered && r.key == key && r.value == Number(b.value);
      assert r in once;
    }
  }

  /** Sum and Count are not: redelivering any record with a non-zero number changes the result of its key. */
  lemma RedeliveryCounted(mode: Combine, recs: seq<Rec>, r: Rec)
    requires r in recs && r.value.Number? && r.value.n != 0
    ensures Idempotent(mode) <==> Received(mode, recs + [r], r.key) == Received(mode, recs, r.key)
  {
    ReceivedNext(mode, recs, r, r.key);
    HasResult(mode, recs, r);
    if Idempotent(mode) { AbsorbsAgain(mode, recs, r); }
  }

  lemma {:induction false} HasResult(mode: Combine, recs: seq<Rec>, r: Rec)
    requires r in recs && r.value.Number?
    ensures Received(mode, recs, r.key).Some?
  {
    var k := |recs| - 1;
    if recs[k] != r { HasResult(mode, recs[..k], r); }
  }
}
