/** Handing a channel's work to one process of the consuming operation. */
module Consuming {
  import opened Topology
  import opened Channels
  import opened Deliveries
  import opened ChannelOps
  import opened Operations
  import opened States
  import opened Termination
  import opened Expiry

  /** The segments of one partition handed to a consumer, in queue order. */
  datatype Work = Work(partition: int, segments: seq<AppendId>)

  /** The input of the channel is complete: the channel is sealed, or production of its epoch is closed if it runs on finite epochs. */
  ghost predicate InputComplete(c: Channel) {
    (c.finite ==> c.epoch in c.productionClosed) && (!c.finite ==> c.sealed)
  }

  // --- Broadcast ---------------------------------------------------------------------------

  /** A process that has no cursor yet starts at the beginning of the log. */
  function WithCursor(c: Channel, pod: Pod): Channel {
    if pod in c.cursor then c else AtCursor(c, pod, 0)
  }

  lemma WithCursorKeeps(c: Channel, pod: Pod)
    requires Channels.Valid(c)
    ensures CalmBut(c, WithCursor(c, pod), {}) && WithCursor(c, pod).segs == c.segs && WithCursor(c, pod).spec == c.spec
  {
    hide Channels.Valid;
    SideKeeps(c, WithCursor(c, pod));
  }

  // --- Hash and RoundRobin ------------------------------------------------------------------

  /** One partition's share: the front of its queue, all of it leased to the process. */
  ghost predicate Share(c: Channel, d: Channel, w: Work, l: Lease) {
    && 0 <= w.partition < |c.queues| == |d.queues| && w.segments != [] && |w.segments| <= |c.queues[w.partition]|
    && w.segments == c.queues[w.partition][..|w.segments|]
    && d.queues[w.partition] == c.queues[w.partition][|w.segments|..]
    && forall a | a in w.segments :: a in c.segs && a in d.segs && !c.segs[a].released && l in d.segs[a].delivered
  }

  /** The partitions looked at so far gave their shares; the others are untouched. */
  ghost predicate Shares(c: Channel, d: Channel, l: Lease, parts: seq<nat>, work: seq<Work>) {
    && |d.queues| == |c.queues| && d.segs.Keys == c.segs.Keys
    && (forall w | w in work :: w.partition in parts && Share(c, d, w, l))
    && (forall p | 0 <= p < |c.queues| && (forall w | w in work :: w.partition != p) :: d.queues[p] == c.queues[p])
    && (forall a | a in c.segs :: a in d.segs && c.segs[a].delivered <= d.segs[a].delivered && c.segs[a].released == d.segs[a].released)
  }

  /** Nothing of the partition can be handed out now: its queue is empty, or its front was given back for later. */
  ghost predicate Exhausted(c: Channel, p: int, l: Lease, now: int) {
    0 <= p < |c.queues| ==> c.queues[p] == [] || (c.queues[p][0] in c.segs && Delayed(c.segs[c.queues[p][0]], l, now))
  }

  lemma FrontExhausted(c: Channel, d: Channel, p: nat, l: Lease, ids: seq<AppendId>, now: int)
    requires p < |c.queues| && FrontTaken(c, d, p, l, ids)
    requires |ids| < |c.queues[p]| ==> c.queues[p][|ids|] in c.segs && Delayed(c.segs[c.queues[p][|ids|]], l, now)
    ensures Exhausted(d, p, l, now)
  {
  }

  lemma StillExhausted(c: Channel, d: Channel, p: nat, l: Lease, ids: seq<AppendId>, now: int, q: int)
    requires p < |c.queues| && FrontTaken(c, d, p, l, ids) && q != p && Exhausted(c, q, l, now)
    ensures Exhausted(d, q, l, now)
  {
  }

  /** Each partition once, in ascending order. */
  ghost predicate Rising(work: seq<Work>) {
    forall i, j | 0 <= i < j < |work| :: work[i].partition < work[j].partition
  }

  lemma RisingNext(parts: seq<nat>, i: nat, work: seq<Work>, w: Work)
    requires i < |parts| && Ascending(parts) && Rising(work) && w.partition == parts[i]
    requires forall j | 0 <= j < |work| :: work[j].partition in parts[..i]
    ensures Rising(work + [w])
  {
  }

  function Count(work: seq<Work>): nat {
    if work == [] then 0 else Count(work[..|work| - 1]) + |work[|work| - 1].segments|
  }

  lemma SharesNext(c: Channel, d: Channel, e: Channel, l: Lease, parts: seq<nat>, work: seq<Work>, p: nat, ids: seq<AppendId>)
    requires Shares(c, d, l, parts, work) && p < |d.queues| && p !in parts && FrontTaken(d, e, p, l, ids)
    requires forall a | a in ids :: a in d.segs && !d.segs[a].released
    ensures ids != [] ==> Shares(c, e, l, parts + [p], work + [Work(p, ids)])
    ensures ids == [] ==> Shares(c, e, l, parts + [p], work)
  {
    assert d.queues[p] == c.queues[p];
    forall a | a in c.segs ensures a in e.segs && d.segs[a].delivered <= e.segs[a].delivered && e.segs[a].released == d.segs[a].released {
      if a in ids {} else {}
    }
    forall w | w in work ensures w.partition in parts + [p] && Share(c, e, w, l) {
      assert Share(c, d, w, l) && w.partition in parts;
    }
    if ids != [] {
      assert Share(c, e, Work(p, ids), l);
      assert Work(p, ids) in work + [Work(p, ids)];
      forall q | 0 <= q < |c.queues| && (forall w | w in work + [Work(p, ids)] :: w.partition != q) ensures e.queues[q] == c.queues[q] {
        assert forall w | w in work :: w in work + [Work(p, ids)];
      }
    }
  }

  /** A partition that was handed work stays with its owner. */
  function Pinned(o: Operation, k: Key): Operation {
    o.(pinned := o.pinned + {k})
  }

  /** The delivery of a hash partition enters the history. */
  lemma PinKeeps(ch: ChannelMap, ops: OperationMap, h: History, op: Name, k: Key, l: Lease)
    requires StateOk(ch, ops, h) && op in ops && k in ops[op].owner && ops[op].owner[k] == l.pod && Active(ops[op], l)
    ensures StateOk(ch, ops[op := Pinned(ops[op], k)], h.(trace := h.trace + [Gave(op, k, l)]))
  {
    hide Channels.Valid, EpochOk, Sticky, LeasesActive, SlotsKnown, ValidOperation, AllHonest;
    var dps := ops[op := Pinned(ops[op], k)];
    PinnedValid(ops[op], k);
    forall p ensures OwnersKept(OpOf(ops, p), OpOf(dps, p)) {}
    StickyGave(ops, dps, h.trace, Gave(op, k, l));
    forall n | n in ch ensures LeasesActive(ch[n], ConsumerOf(dps, ch[n].spec)) && SlotsKnown(ch[n], ConsumerOf(dps, ch[n].spec)) {
      assert LeasesActive(ch[n], ConsumerOf(ops, ch[n].spec)) && SlotsKnown(ch[n], ConsumerOf(ops, ch[n].spec));
      ConsumerKept(ch[n], ConsumerOf(ops, ch[n].spec), ConsumerOf(dps, ch[n].spec));
    }
  }

  lemma PinnedValid(o: Operation, k: Key)
    requires ValidOperation(o) && k in o.owner
    ensures ValidOperation(Pinned(o, k))
  {
    SlotsSame(o, Pinned(o, k));
  }

  lemma BalanceKeepsState(ch: ChannelMap, ops: OperationMap, h: History, op: Name, n: nat)
    requires StateOk(ch, ops, h)
    ensures StateOk(ch, ops[op := Balanced(OpOf(ops, op), n)], WithLive(h, op, |OpOf(ops, op).pods|))
    ensures Balanced(OpOf(ops, op), n) == OpOf(ops, op).(owner := Balanced(OpOf(ops, op), n).owner)
  {
    hide StateOk, Balanced, SlotsPartitioned, ActiveNotRetired;
    OperationIsValid(ch, ops, h, op);
    BalancedKeeps(OpOf(ops, op), n);
    BalanceOwners(OpOf(ops, op), Balanced(OpOf(ops, op), n));
    OperationKeeps(ch, ops, h, op, Balanced(OpOf(ops, op), n));
  }

  lemma BalanceOwners(o: Operation, r: Operation)
    requires r == o.(owner := r.owner) && o.owner.Keys <= r.owner.Keys && forall k | k in o.pinned :: k in r.owner && k in o.owner && r.owner[k] == o.owner[k]
    ensures OwnersKept(o, r) && r.nextSlot == o.nextSlot && r.pods == o.pods
  {
  }

  /** Nothing but one channel and one operation's ownership may change. */
  ghost predicate Elsewhere(ch: ChannelMap, dh: ChannelMap, n: Name) {
    ch.Keys == dh.Keys && forall m | m in ch && m != n :: dh[m] == ch[m]
  }

  /** The process is handed the front of the queues of the partitions assigned to it. */
  method DeliverPartitions(ch: ChannelMap, ops: OperationMap, ghost h: History, n: Name, op: Name, l: Lease, max: nat, now: int)
    returns (d: Channel, dps: OperationMap, work: seq<Work>, ghost g: History, ghost r: Operation)
    requires StateOk(ch, ops, h) && n in ch && ch[n].spec.to == Some(op) && !ch[n].spec.IsBroadcast() && Active(OpOf(ops, op), l)
    ensures StateOk(ch[n := d], dps, g) && Leases(ch[n], d, l)
    ensures r == if ch[n].spec.mode == Hash then Balanced(OpOf(ops, op), ch[n].spec.partitions) else OpOf(ops, op)
    ensures forall w | w in work :: Share(ch[n], d, w, l) && AssignedTo(r, ch[n].spec.mode, ch[n].spec.partitions, w.partition, l.pod)
    ensures forall p | 0 <= p < |ch[n].queues| && (forall w | w in work :: w.partition != p) :: |d.queues| == |ch[n].queues| && d.queues[p] == ch[n].queues[p]
    ensures Count(work) <= max && Rising(work)
    ensures Count(work) == max || forall p | 0 <= p < ch[n].spec.partitions && AssignedTo(r, ch[n].spec.mode, ch[n].spec.partitions, p, l.pod) :: Exhausted(d, p, l, now)
    ensures forall o | o != op :: OpOf(dps, o) == OpOf(ops, o)
    ensures OpOf(dps, op) == r.(pinned := OpOf(dps, op).pinned)
    ensures OpOf(dps, op).pinned == r.pinned + (if ch[n].spec.mode == Hash then KeysOf(ch[n].spec.partitions, work) else {})
    ensures g.finished == h.finished && g.confirmed == h.confirmed
    ensures g.trace == h.trace + (if ch[n].spec.mode == Hash then Given(op, ch[n].spec.partitions, l, work) else [])
  {
    hide Joined, Evolves, DropsNothing, StateOk, Channels.Valid, Hands, Balanced, Share, FrontTaken, AssignedTo, KeysOf, Count, Given, Exhausted, Rising, Handing;
    StateIsValid(ch, ops, h);
    var c := ch[n];
    var k := c.spec.partitions;
    var o, parts := Assigned(OpOf(ops, op), c.spec.mode, k, l.pod);
    r := o;
    BalanceKeepsState(ch, ops, h, op, k);
    SameOperationKeeps(ch, ops, h, op);
    dps := ops[op := o];
    g := WithLive(h, op, |OpOf(ops, op).pods|);
    d := c;
    work := [];
    var used: nat := 0;
    LeasesReflexive(c, l);
    QueuesCount(c);
    KeysOfNone(k);
    GivenNone(op, k, l);
    HandingNone(c, l, r, max, now);
    assert ch[n := c] == ch && parts[..0] == [];
    for i := 0 to |parts|
      invariant StateOk(ch[n := d], dps, g) && Leases(c, d, l) && d.spec == c.spec
      invariant Handing(c, d, l, r, parts[..i], work, max, now) && used == Count(work) <= max && |d.queues| == k
      invariant g.finished == h.finished && g.confirmed == h.confirmed && g.trace == h.trace + (if c.spec.mode == Hash then Given(op, k, l, work) else [])
      invariant op in dps && dps == ops[op := dps[op]] && dps[op] == r.(pinned := dps[op].pinned)
      invariant dps[op].pinned == r.pinned + (if c.spec.mode == Hash then KeysOf(k, work) else {})
    {
      var p := parts[i];
      assert p in parts;
      var e, ids := DeliverPartition(d, p, l, max - used, now);
      HandingNext(c, d, e, l, r, parts, i, work, ids, max, now);
      LeasingOn(ch, dps, g, n, d, e, l);
      if ids != [] {
        CountNext(work, Work(p, ids));
        KeysOfNext(k, work, Work(p, ids));
        GivenNext(op, k, l, work, Work(p, ids));
        work := work + [Work(p, ids)];
        used := used + |ids|;
        if c.spec.mode == Hash {
          OwnedBy(r, c.spec.mode, k, p, l.pod);
          PinKeeps(ch[n := e], dps, g, op, (k, p), l);
          g := g.(trace := g.trace + [Gave(op, (k, p), l)]);
          dps := dps[op := Pinned(dps[op], (k, p))];
        }
      }
      d := e;
    }
    assert parts[..|parts|] == parts;
    HandingMeans(c, d, l, r, parts, work, max, now);
  }

  /** What was handed out of the partitions looked at so far. */
  ghost predicate Handing(c: Channel, d: Channel, l: Lease, r: Operation, parts: seq<nat>, work: seq<Work>, max: nat, now: int) {
    && Shares(c, d, l, parts, work) && Rising(work) && Count(work) <= max
    && (forall j | 0 <= j < |work| :: work[j].partition in parts)
    && (forall w | w in work :: AssignedTo(r, c.spec.mode, c.spec.partitions, w.partition, l.pod))
    && (Count(work) == max || forall q | q in parts :: Exhausted(d, q, l, now))
  }

  lemma HandingNone(c: Channel, l: Lease, r: Operation, max: nat, now: int)
    ensures Handing(c, c, l, r, [], [], max, now) && Count([]) == 0
  {
    SharesNone(c, l);
  }

  lemma HandingNext(c: Channel, d: Channel, e: Channel, l: Lease, r: Operation, parts: seq<nat>, i: nat, work: seq<Work>,
                    ids: seq<AppendId>, max: nat, now: int)
    requires i < |parts| && Ascending(parts) && Handing(c, d, l, r, parts[..i], work, max, now)
    requires parts[i] < |d.queues| == |e.queues| && AssignedTo(r, c.spec.mode, c.spec.partitions, parts[i], l.pod)
    requires FrontTaken(d, e, parts[i], l, ids) && |ids| <= max - Count(work) && forall a | a in ids :: a in d.segs && !d.segs[a].released
    requires |ids| < max - Count(work) && |ids| < |d.queues[parts[i]]| ==>
      d.queues[parts[i]][|ids|] in d.segs && Delayed(d.segs[d.queues[parts[i]][|ids|]], l, now)
    ensures Handing(c, e, l, r, parts[..i + 1], if ids == [] then work else work + [Work(parts[i], ids)], max, now)
  {
    hide Share, Shares, FrontTaken, AssignedTo, Count, Exhausted, Rising;
    var p := parts[i];
    assert p !in parts[..i];
    assert parts[..i + 1] == parts[..i] + [p];
    SharesNext(c, d, e, l, parts[..i], work, p, ids);
    CountNext(work, Work(p, ids));
    RisingNext(parts, i, work, Work(p, ids));
    if Count(work) + |ids| < max {
      FrontExhausted(d, e, p, l, ids, now);
      forall q | q in parts[..i] ensures Exhausted(e, q, l, now) { StillExhausted(d, e, p, l, ids, now, q); }
    }
  }

  lemma HandingMeans(c: Channel, d: Channel, l: Lease, r: Operation, parts: seq<nat>, work: seq<Work>, max: nat, now: int)
    requires Handing(c, d, l, r, parts, work, max, now)
    ensures forall w | w in work :: Share(c, d, w, l) && AssignedTo(r, c.spec.mode, c.spec.partitions, w.partition, l.pod)
    ensures forall p | 0 <= p < |c.queues| && (forall w | w in work :: w.partition != p) :: |d.queues| == |c.queues| && d.queues[p] == c.queues[p]
    ensures Count(work) <= max && Rising(work) && (Count(work) == max || forall q | q in parts :: Exhausted(d, q, l, now))
  {
    hide Share, AssignedTo, Exhausted, Rising;
  }

  /** The hash partitions that work was handed out of. */
  ghost function KeysOf(n: nat, work: seq<Work>): set<Key> {
    set w | w in work :: (n, w.partition)
  }

  /** The deliveries of hash partitions as the history records them. */
  ghost function Given(op: Name, n: nat, l: Lease, work: seq<Work>): seq<Event> {
    seq(|work|, i requires 0 <= i < |work| => Gave(op, (n, work[i].partition), l))
  }

  lemma GivenNone(op: Name, n: nat, l: Lease)
    ensures Given(op, n, l, []) == []
  {
  }

  lemma GivenNext(op: Name, n: nat, l: Lease, work: seq<Work>, w: Work)
    ensures Given(op, n, l, work + [w]) == Given(op, n, l, work) + [Gave(op, (n, w.partition), l)]
  {
  }

  lemma KeysOfNone(n: nat)
    ensures KeysOf(n, []) == {} && Count([]) == 0
  {
  }

  lemma KeysOfNext(n: nat, work: seq<Work>, w: Work)
    ensures KeysOf(n, work + [w]) == KeysOf(n, work) + {(n, w.partition)}
  {
    assert forall v :: v in work + [w] <==> v in work || v == w;
  }

  lemma CountNext(work: seq<Work>, w: Work)
    ensures Count(work + [w]) == Count(work) + |w.segments|
  {
    assert (work + [w])[..|work|] == work;
  }

  lemma SharesNone(c: Channel, l: Lease)
    ensures Shares(c, c, l, [], [])
  {
  }

  lemma LeasesSpec(c: Channel, d: Channel, l: Lease)
    requires Leases(c, d, l)
    ensures d.spec == c.spec
  {
  }

  lemma LeasingOn(ch: ChannelMap, ops: OperationMap, h: History, n: Name, d: Channel, e: Channel, l: Lease)
    requires n in ch && !ch[n].spec.IsBroadcast() && Leases(ch[n], d, l) && Leases(d, e, l) && StateOk(ch[n := d], ops, h)
    requires Active(ConsumerOf(ops, ch[n].spec), l)
    ensures Leases(ch[n], e, l) && StateOk(ch[n := e], ops, h) && e.spec == ch[n].spec
  {
    hide StateOk, Leases;
    LeasesSpec(ch[n], d, l);
    LeasesSpec(d, e, l);
    LeasesTransitive(ch[n], d, e, l);
    assert ch[n := d][n := e] == ch[n := e];
    LeasingKeeps(ch[n := d], ops, h, n, e, l);
  }

  lemma QueuesCount(c: Channel)
    requires Channels.Valid(c)
    ensures |c.queues| == c.spec.partitions
  {
  }

  lemma OwnedBy(o: Operation, mode: Mode, n: nat, p: int, pod: Pod)
    requires mode == Hash && AssignedTo(o, mode, n, p, pod)
    ensures (n, p) in o.owner && o.owner[(n, p)] == pod
  {
  }

  lemma SameOperationKeeps(ch: ChannelMap, ops: OperationMap, h: History, op: Name)
    requires StateOk(ch, ops, h)
    ensures StateOk(ch, ops[op := OpOf(ops, op)], WithLive(h, op, |OpOf(ops, op).pods|))
  {
    hide StateOk, ValidOperation;
    OperationIsValid(ch, ops, h, op);
    OperationKeeps(ch, ops, h, op, OpOf(ops, op));
  }
}
