/**
 Records from outside the graph are grouped by partition and epoch before the
 coordinator stores one segment for each group.
 */
module Grouping {
  import opened Topology

  type Key(==, !new)
  type Body(==, !new)

  datatype Outside = Outside(key: Key, epoch: int, body: Body)

  /** A partition and an epoch. */
  datatype Slot = Slot(part: int, epoch: int)

  /** How a channel finds the partition of a record. */
  datatype Router = Router(mode: Mode, partitions: nat, hash: Key -> int)

  ghost function PartOf(q: Router, turn: nat, r: Outside): int
    requires q.partitions > 0
  {
    match q.mode
    case Broadcast => 0
    case Hash => q.hash(r.key)
    case RoundRobin => turn % q.partitions
  }

  /** Only round robin takes turns. */
  ghost function TurnAt(q: Router, turn: nat, i: nat): nat {
    if q.mode == RoundRobin then turn + i else turn
  }

  ghost function SlotAt(q: Router, turn: nat, recs: seq<Outside>, i: nat): Slot
    requires q.partitions > 0 && i < |recs|
  {
    Slot(PartOf(q, TurnAt(q, turn, i), recs[i]), recs[i].epoch)
  }

  /** With Hash routing the records of one key share a partition, within a batch and across batches. */
  lemma KeyStaysTogether(q: Router, turn: nat, recs: seq<Outside>, i: nat, later: nat, more: seq<Outside>, j: nat)
    requires q.partitions > 0 && q.mode == Hash && i < |recs| && j < |more| && recs[i].key == more[j].key
    ensures SlotAt(q, turn, recs, i).part == SlotAt(q, later, more, j).part
  {
  }

  /** In turn, each record goes to the partition after that of the one before; the next batch goes on from there. */
  lemma TurnsGoRound(q: Router, turn: nat, recs: seq<Outside>, i: nat, more: seq<Outside>)
    requires q.partitions > 0 && q.mode == RoundRobin && i < |recs|
    ensures i + 1 < |recs| ==> SlotAt(q, turn, recs, i + 1).part == NextOf(SlotAt(q, turn, recs, i).part, q.partitions)
    ensures i + 1 == |recs| && more != [] ==> SlotAt(q, TurnAt(q, turn, |recs|), more, 0).part == NextOf(SlotAt(q, turn, recs, i).part, q.partitions)
  {
    TurnsInOrder(turn + i, q.partitions);
  }

  /** The records of one slot, in the order they came. */
  ghost function In(q: Router, turn: nat, recs: seq<Outside>, k: Slot): seq<Outside>
    requires q.partitions > 0
  {
    if recs == [] then []
    else
      var n := |recs| - 1;
      In(q, turn, recs[..n], k) + (if SlotAt(q, turn, recs, n) == k then [recs[n]] else [])
  }

  lemma InNext(q: Router, turn: nat, recs: seq<Outside>, i: nat, k: Slot)
    requires q.partitions > 0 && i < |recs|
    ensures In(q, turn, recs[..i + 1], k) == In(q, turn, recs[..i], k) + (if SlotAt(q, turn, recs, i) == k then [recs[i]] else [])
  {
    assert recs[..i + 1][..i] == recs[..i];
  }

  /** The groups of the first `n` records. */
  ghost predicate Grouped(q: Router, turn: nat, recs: seq<Outside>, n: nat, groups: map<Slot, seq<Outside>>)
    requires q.partitions > 0 && n <= |recs|
  {
    && (forall k :: k in groups <==> In(q, turn, recs[..n], k) != [])
    && forall k | k in groups :: groups[k] == In(q, turn, recs[..n], k)
  }

  /** Each slot with a group is listed once, in the order their first records came. */
  ghost predicate Ordered(q: Router, turn: nat, recs: seq<Outside>, n: nat, order: seq<Slot>, groups: map<Slot, seq<Outside>>)
    requires q.partitions > 0
  {
    && (forall k :: k in order <==> k in groups)
    && (forall k | k in groups :: FirstAt(q, turn, recs, k) < n)
    && forall i, j | 0 <= i < j < |order| :: FirstAt(q, turn, recs, order[i]) < FirstAt(q, turn, recs, order[j])
  }

  lemma GroupedNext(q: Router, turn: nat, recs: seq<Outside>, n: nat, groups: map<Slot, seq<Outside>>)
    requires q.partitions > 0 && n < |recs| && Grouped(q, turn, recs, n, groups)
    ensures var k := SlotAt(q, turn, recs, n);
      Grouped(q, turn, recs, n + 1, groups[k := (if k in groups then groups[k] else []) + [recs[n]]])
  {
    hide In;
    forall s ensures In(q, turn, recs[..n + 1], s) == In(q, turn, recs[..n], s) + (if SlotAt(q, turn, recs, n) == s then [recs[n]] else []) {
      InNext(q, turn, recs, n, s);
    }
  }

  lemma OrderedNext(q: Router, turn: nat, recs: seq<Outside>, n: nat, order: seq<Slot>, groups: map<Slot, seq<Outside>>, more: seq<Outside>)
    requires q.partitions > 0 && n < |recs| && Grouped(q, turn, recs, n, groups) && Ordered(q, turn, recs, n, order, groups)
    ensures var k := SlotAt(q, turn, recs, n);
      Ordered(q, turn, recs, n + 1, if k in groups then order else order + [k], groups[k := more])
  {
    hide In, FirstAt;
    var k := SlotAt(q, turn, recs, n);
    if k !in groups {
      NotBefore(q, turn, recs, n, k);
      forall i | 0 <= i < |order| ensures FirstAt(q, turn, recs, order[i]) < n { assert order[i] in order; }
    }
  }

  /**
   Every group holds exactly the records of its slot, in order; no group is empty
   and no record is left over. Groups are stored in the order their first record came.
   */
  method Group(q: Router, turn0: nat, recs: seq<Outside>) returns (order: seq<Slot>, groups: map<Slot, seq<Outside>>, turn: nat)
    requires q.partitions > 0
    ensures forall k :: k in order <==> k in groups
    ensures forall i, j | 0 <= i < j < |order| :: FirstAt(q, turn0, recs, order[i]) < FirstAt(q, turn0, recs, order[j])
    ensures forall k :: k in groups <==> In(q, turn0, recs, k) != []
    ensures forall k | k in groups :: groups[k] == In(q, turn0, recs, k)
    ensures turn == TurnAt(q, turn0, |recs|)
  {
    hide In, FirstAt, Ordered, Grouped;
    order, groups, turn := [], map[], turn0;
    NothingGrouped(q, turn0, recs);
    for n := 0 to |recs|
      invariant turn == TurnAt(q, turn0, n)
      invariant Grouped(q, turn0, recs, n, groups) && Ordered(q, turn0, recs, n, order, groups)
    {
      var part := 0;
      if q.mode == Hash {
        part := q.hash(recs[n].key);
      } else if q.mode == RoundRobin {
        part := turn % q.partitions;
        turn := turn + 1;
      }
      var k := Slot(part, recs[n].epoch);
      var more := (if k in groups then groups[k] else []) + [recs[n]];
      GroupedNext(q, turn0, recs, n, groups);
      OrderedNext(q, turn0, recs, n, order, groups, more);
      if k !in groups { order := order + [k]; }
      groups := groups[k := more];
    }
    GroupedMeans(q, turn0, recs, order, groups);
  }

  lemma NothingGrouped(q: Router, turn: nat, recs: seq<Outside>)
    requires q.partitions > 0
    ensures Grouped(q, turn, recs, 0, map[]) && Ordered(q, turn, recs, 0, [], map[])
  {
  }

  lemma GroupedMeans(q: Router, turn: nat, recs: seq<Outside>, order: seq<Slot>, groups: map<Slot, seq<Outside>>)
    requires q.partitions > 0 && Grouped(q, turn, recs, |recs|, groups) && Ordered(q, turn, recs, |recs|, order, groups)
    ensures forall k :: k in order <==> k in groups
    ensures forall i, j | 0 <= i < j < |order| :: FirstAt(q, turn, recs, order[i]) < FirstAt(q, turn, recs, order[j])
    ensures forall k :: k in groups <==> In(q, turn, recs, k) != []
    ensures forall k | k in groups :: groups[k] == In(q, turn, recs, k)
  {
    hide In, FirstAt;
    assert recs[..|recs|] == recs;
  }

  /** Where the first record of the slot is. */
  ghost function FirstAt(q: Router, turn: nat, recs: seq<Outside>, k: Slot): nat
    requires q.partitions > 0
  {
    FirstFrom(q, turn, recs, k, 0)
  }

  ghost function FirstFrom(q: Router, turn: nat, recs: seq<Outside>, k: Slot, i: nat): nat
    requires q.partitions > 0
    decreases |recs| - i
  {
    if i >= |recs| || SlotAt(q, turn, recs, i) == k then i else FirstFrom(q, turn, recs, k, i + 1)
  }

  lemma {:induction false} FirstIs(q: Router, turn: nat, recs: seq<Outside>, k: Slot, i: nat, n: nat)
    requires q.partitions > 0 && i <= n < |recs| && SlotAt(q, turn, recs, n) == k
    requires forall j | i <= j < n :: SlotAt(q, turn, recs, j) != k
    ensures FirstFrom(q, turn, recs, k, i) == n
    decreases n - i
  {
    if i < n { FirstIs(q, turn, recs, k, i + 1, n); }
  }

  lemma {:induction false} NoneIn(q: Router, turn: nat, recs: seq<Outside>, n: nat, k: Slot)
    requires q.partitions > 0 && n <= |recs| && In(q, turn, recs[..n], k) == []
    ensures forall j | 0 <= j < n :: SlotAt(q, turn, recs, j) != k
  {
    if n > 0 {
      InNext(q, turn, recs, n - 1, k);
      NoneIn(q, turn, recs, n - 1, k);
    }
  }

  lemma NotBefore(q: Router, turn: nat, recs: seq<Outside>, n: nat, k: Slot)
    requires q.partitions > 0 && n < |recs| && In(q, turn, recs[..n], k) == [] && SlotAt(q, turn, recs, n) == k
    ensures FirstAt(q, turn, recs, k) == n
  {
    NoneIn(q, turn, recs, n, k);
    FirstIs(q, turn, recs, k, 0, n);
  }

  /** No record is lost in a group of another slot, and each has its own place: the groups make up all records. */
  lemma {:induction false} GroupsMakeUpAll(q: Router, turn: nat, recs: seq<Outside>, i: nat)
    requires q.partitions > 0 && i < |recs|
    ensures recs[i] in In(q, turn, recs, SlotAt(q, turn, recs, i))
    ensures forall k, r | r in In(q, turn, recs, k) :: exists j :: 0 <= j < |recs| && recs[j] == r && SlotAt(q, turn, recs, j) == k
  {
    var n := |recs| - 1;
    InFrom(q, turn, recs);
    if i < n {
      GroupsMakeUpAll(q, turn, recs[..n], i);
      assert SlotAt(q, turn, recs[..n], i) == SlotAt(q, turn, recs, i);
    }
  }

  lemma {:induction false} InFrom(q: Router, turn: nat, recs: seq<Outside>)
    requires q.partitions > 0
    ensures forall k, r | r in In(q, turn, recs, k) :: exists j :: 0 <= j < |recs| && recs[j] == r && SlotAt(q, turn, recs, j) == k
  {
    if recs != [] {
      var n := |recs| - 1;
      InFrom(q, turn, recs[..n]);
      forall k, r | r in In(q, turn, recs, k) ensures exists j :: 0 <= j < |recs| && recs[j] == r && SlotAt(q, turn, recs, j) == k {
        if r in In(q, turn, recs[..n], k) {
          var j :| 0 <= j < n && recs[..n][j] == r && SlotAt(q, turn, recs[..n], j) == k;
          assert recs[j] == r && SlotAt(q, turn, recs, j) == k;
        } else {
          assert recs[n] == r && SlotAt(q, turn, recs, n) == k;
        }
      }
    }
  }

  // --- sizes -------------------------------------------------------------------------------------

  /** Every record's slot is listed, once. */
  ghost predicate Covers(q: Router, turn: nat, recs: seq<Outside>, order: seq<Slot>)
    requires q.partitions > 0
  {
    && (forall i, j | 0 <= i < j < |order| :: order[i] != order[j])
    && forall j | 0 <= j < |recs| :: SlotAt(q, turn, recs, j) in order
  }

  ghost function SizeOf(q: Router, turn: nat, recs: seq<Outside>, order: seq<Slot>): int
    requires q.partitions > 0
  {
    if order == [] then 0
    else
      var n := |order| - 1;
      SizeOf(q, turn, recs, order[..n]) + |In(q, turn, recs, order[n])|
  }

  lemma {:induction false} SizeNext(q: Router, turn: nat, recs: seq<Outside>, order: seq<Slot>)
    requires q.partitions > 0 && recs != [] && forall i, j | 0 <= i < j < |order| :: order[i] != order[j]
    ensures var n := |recs| - 1;
      SizeOf(q, turn, recs, order) == SizeOf(q, turn, recs[..n], order) + (if SlotAt(q, turn, recs, n) in order then 1 else 0)
  {
    if order != [] {
      var k := |order| - 1;
      SizeNext(q, turn, recs, order[..k]);
      assert order == order[..k] + [order[k]];
      assert order[k] !in order[..k];
    }
  }

  lemma {:induction false} SizeOfNothing(q: Router, turn: nat, order: seq<Slot>)
    requires q.partitions > 0
    ensures SizeOf(q, turn, [], order) == 0
  {
    if order != [] { SizeOfNothing(q, turn, order[..|order| - 1]); }
  }

  /** The sizes of the groups add up to the number of records. */
  lemma {:induction false} SizesAddUp(q: Router, turn: nat, recs: seq<Outside>, order: seq<Slot>)
    requires q.partitions > 0 && Covers(q, turn, recs, order)
    ensures SizeOf(q, turn, recs, order) == |recs|
  {
    if recs == [] {
      SizeOfNothing(q, turn, order);
    } else {
      var n := |recs| - 1;
      forall j | 0 <= j < n ensures SlotAt(q, turn, recs[..n], j) in order { assert SlotAt(q, turn, recs[..n], j) == SlotAt(q, turn, recs, j); }
      SizesAddUp(q, turn, recs[..n], order);
      SizeNext(q, turn, recs, order);
    }
  }

  /** The slots listed for the groups are those of the records. */
  lemma GroupsCover(q: Router, turn: nat, recs: seq<Outside>, order: seq<Slot>)
    requires q.partitions > 0 && forall i, j | 0 <= i < j < |order| :: FirstAt(q, turn, recs, order[i]) < FirstAt(q, turn, recs, order[j])
    requires forall k :: k in order <==> In(q, turn, recs, k) != []
    ensures Covers(q, turn, recs, order)
  {
    hide In, FirstAt;
    forall j | 0 <= j < |recs| ensures SlotAt(q, turn, recs, j) in order { GroupsMakeUpAll(q, turn, recs, j); }
  }

  /** There are no more groups than records. */
  lemma NoMoreGroups(q: Router, turn: nat, recs: seq<Outside>, order: seq<Slot>)
    requires q.partitions > 0 && Covers(q, turn, recs, order) && forall k | k in order :: In(q, turn, recs, k) != []
    ensures |order| <= |recs|
  {
    SizesAddUp(q, turn, recs, order);
    AtLeastOne(q, turn, recs, order);
  }

  lemma {:induction false} AtLeastOne(q: Router, turn: nat, recs: seq<Outside>, order: seq<Slot>)
    requires q.partitions > 0 && forall k | k in order :: In(q, turn, recs, k) != []
    ensures SizeOf(q, turn, recs, order) >= |order|
  {
    hide In;
    if order != [] {
      AtLeastOne(q, turn, recs, order[..|order| - 1]);
      assert order[|order| - 1] in order;
    }
  }
}
