/**
 Every change to a channel keeps its invariant: no segment is duplicated or
 forgotten, the superstep barrier holds and the record counters balance.
 */
module Deliveries {
  import opened Topology
  import opened Sums
  import opened Channels

  lemma GrowsTransitive(c: Channel, d: Channel, e: Channel)
    requires Grows(c, d) && Grows(d, e)
    ensures Grows(c, e)
  {
    ReadersTransitive(c, d, e);
    hide ReadersKept;
  }

  // --- counters ---------------------------------------------------------------

  /** Moving segments between places, or changing leases, leaves the counters right. */
  lemma CountersKept(c: Channel, d: Channel)
    requires Counted(c) && d.spec == c.spec && d.segs.Keys == c.segs.Keys
    requires d.produced == c.produced && d.acknowledged == c.acknowledged && d.lost == c.lost
    requires forall a | a in c.segs ::
      d.segs[a].meta == c.segs[a].meta && d.segs[a].lost == c.segs[a].lost && d.segs[a].acked == c.segs[a].acked
    ensures Counted(d)
  {
    assert RecordsOf(d.segs) == RecordsOf(c.segs);
    assert Admitted(d) == Admitted(c) && AckedIds(d) == AckedIds(c) && LostIds(d) == LostIds(c);
  }

  lemma CountersAdded(c: Channel, d: Channel, m: Announcement, s: Segment)
    requires Counted(c) && d.spec == c.spec && m.append !in c.segs
    requires d.segs == c.segs[m.append := s] && s.meta == m && s.acked == {} && !s.lost
    requires d.acknowledged == c.acknowledged && d.lost == c.lost
    requires d.produced == c.produced + (if BeyondBound(c.spec, m.epoch) then 0 else m.records)
    ensures Counted(d)
  {
    if !c.spec.IsBroadcast() {
      var w, v := RecordsOf(c.segs), RecordsOf(d.segs);
      TotalFrame(w, v, Admitted(c));
      TotalFrame(w, v, AckedIds(c));
      TotalFrame(w, v, LostIds(c));
      assert AckedIds(d) == AckedIds(c) && LostIds(d) == LostIds(c);
      if BeyondBound(c.spec, m.epoch) {
        assert Admitted(d) == Admitted(c);
      } else {
        assert Admitted(d) == Admitted(c) + {m.append};
        TotalAdd(v, Admitted(c), m.append);
      }
    }
  }

  lemma CountersAcked(c: Channel, d: Channel, a: AppendId)
    requires Counted(c) && d.spec == c.spec && d.segs.Keys == c.segs.Keys && a in c.segs
    requires c.segs[a].acked == {} && d.segs[a].acked != {} && d.segs[a].meta == c.segs[a].meta && d.segs[a].lost == c.segs[a].lost
    requires forall b | b in c.segs && b != a :: d.segs[b] == c.segs[b]
    requires d.produced == c.produced && d.lost == c.lost && d.acknowledged == c.acknowledged + c.segs[a].meta.records
    ensures Counted(d)
  {
    if !c.spec.IsBroadcast() {
      assert RecordsOf(d.segs) == RecordsOf(c.segs);
      assert Admitted(d) == Admitted(c) && LostIds(d) == LostIds(c);
      assert AckedIds(d) == AckedIds(c) + {a};
      TotalAdd(RecordsOf(c.segs), AckedIds(c), a);
    }
  }

  lemma CountersLost(c: Channel, d: Channel, a: AppendId)
    requires Counted(c) && d.spec == c.spec && d.segs.Keys == c.segs.Keys && a in c.segs
    requires !c.segs[a].lost && d.segs[a].lost && d.segs[a].meta == c.segs[a].meta && d.segs[a].acked == c.segs[a].acked
    requires forall b | b in c.segs && b != a :: d.segs[b] == c.segs[b]
    requires d.produced == c.produced && d.acknowledged == c.acknowledged && d.lost == c.lost + c.segs[a].meta.records
    ensures Counted(d)
  {
    if !c.spec.IsBroadcast() {
      assert RecordsOf(d.segs) == RecordsOf(c.segs);
      assert Admitted(d) == Admitted(c) && AckedIds(d) == AckedIds(c);
      assert LostIds(d) == LostIds(c) + {a};
      TotalAdd(RecordsOf(c.segs), LostIds(c), a);
    }
  }

  // --- indexing ------------------------------------------------------------------

  ghost predicate Admissible(c: Channel, m: Announcement) {
    && InRange(c, m) && m.append !in c.segs && !KeyTaken(c, m)
    && (c.finite ==> m.epoch >= c.epoch)
  }

  lemma IndexedPlaces(c: Channel, m: Announcement, external: bool)
    requires Placement(c) && Admissible(c, m)
    ensures Places(Indexed(c, m, external))
  {
    var d := Indexed(c, m, external);
    forall b | b in d.segs ensures Placed(d, b) && d.segs[b].meta.append == b {
      if b != m.append { assert Placed(c, b); }
    }
  }

  lemma IndexedLists(c: Channel, m: Announcement, external: bool)
    requires Placement(c) && Admissible(c, m)
    ensures Queues(Indexed(c, m, external)) && Lists(Indexed(c, m, external)) && KeysUnique(Indexed(c, m, external))
  {
    hide Places;
    NotListed(c, m.append);
    IndexedQueues(c, m, external);
  }

  lemma NotListed(c: Channel, a: AppendId)
    requires Queues(c) && Lists(c) && a !in c.segs
    ensures a !in c.held && forall p | 0 <= p < |c.queues| :: a !in c.queues[p]
  {
  }

  lemma IndexedQueues(c: Channel, m: Announcement, external: bool)
    requires Queues(c) && InRange(c, m) && forall p | 0 <= p < |c.queues| :: m.append !in c.queues[p]
    ensures Queues(Indexed(c, m, external))
  {
  }

  lemma IndexedBarrier(c: Channel, m: Announcement, external: bool)
    requires Placement(c) && Barrier(c) && Admissible(c, m)
    ensures Barrier(Indexed(c, m, external))
  {
  }

  lemma IndexedKeeps(c: Channel, m: Announcement, external: bool)
    requires Valid(c) && Admissible(c, m)
    ensures Valid(Indexed(c, m, external)) && Grows(c, Indexed(c, m, external))
    ensures Indexed(c, m, external).segs.Keys == c.segs.Keys + {m.append} && DropsNothing(c, Indexed(c, m, external))
  {
    var d := Indexed(c, m, external);
    IndexedDrops(c, m, external);
    IndexedEvolves(c, m, external);
    IndexedCounts(c, m, external);
    hide Admissible, DropsNothing, Counted, Grows, Places, Queues, Lists, KeysUnique, Indexed;
    IndexedPlaces(c, m, external);
    IndexedLists(c, m, external);
    IndexedBarrier(c, m, external);
  }

  lemma IndexedDrops(c: Channel, m: Announcement, external: bool)
    requires m.append !in c.segs
    ensures DropsNothing(c, Indexed(c, m, external)) && Indexed(c, m, external).segs.Keys == c.segs.Keys + {m.append}
  {
  }

  lemma IndexedEvolves(c: Channel, m: Announcement, external: bool)
    requires m.append !in c.segs
    ensures Grows(c, Indexed(c, m, external))
  {
  }

  lemma IndexedCounts(c: Channel, m: Announcement, external: bool)
    requires Counted(c) && m.append !in c.segs
    ensures Counted(Indexed(c, m, external))
  {
    var d := Indexed(c, m, external);
    CountersAdded(c, d, m, d.segs[m.append]);
  }

  // --- leases -----------------------------------------------------------------------

  ghost predicate HeadOk(c: Channel, p: nat, a: AppendId) {
    && a in c.segs && c.segs[a].meta.part == p && !c.spec.IsBroadcast() && p < |c.queues| && c.queues[p] != []
    && Queued(c, a) && !c.segs[a].released && c.segs[a].delivered == {}
    && a !in c.held && a !in c.inflight && a !in c.queues[p][1..]
  }

  lemma HeadPlaced(c: Channel, p: nat)
    requires Placement(c) && p < |c.queues| && c.queues[p] != []
    ensures HeadOk(c, p, c.queues[p][0])
  {
    var a := c.queues[p][0];
    assert a in c.queues[p];
    assert Placed(c, a) && Queued(c, a);
  }

  lemma HandedPlaces(c: Channel, p: nat, l: Lease)
    requires Placement(c) && p < |c.queues| && c.queues[p] != [] && c.queues[p][0] in c.segs
    ensures Places(Handed(c, p, l))
  {
    HeadPlaced(c, p);
    var d := Handed(c, p, l);
    var a := c.queues[p][0];
    assert forall b | b in c.queues[p] :: b == a || b in c.queues[p][1..];
    forall b | b in d.segs ensures Placed(d, b) && d.segs[b].meta.append == b {
      assert Placed(c, b);
      assert b != a ==> (Queued(d, b) <==> Queued(c, b));
    }
  }

  lemma HandedLists(c: Channel, p: nat, l: Lease)
    requires Placement(c) && p < |c.queues| && c.queues[p] != [] && c.queues[p][0] in c.segs
    ensures Queues(Handed(c, p, l)) && Lists(Handed(c, p, l)) && KeysUnique(Handed(c, p, l))
  {
    HeadPlaced(c, p);
  }

  lemma HandedBarrier(c: Channel, p: nat, l: Lease)
    requires Placement(c) && Barrier(c) && p < |c.queues| && c.queues[p] != [] && c.queues[p][0] in c.segs
    ensures Barrier(Handed(c, p, l))
  {
    HeadPlaced(c, p);
  }

  ghost predicate LeasesPlus(c: Channel, d: Channel, l: Lease) {
    forall b, m | b in d.segs && m in d.segs[b].delivered :: m == l || (b in c.segs && m in c.segs[b].delivered)
  }

  /** A change that hands out leases of one process and does nothing else. */
  ghost predicate Leases(c: Channel, d: Channel, l: Lease) {
    Valid(d) && Hands(c, d, l) && DropsNothing(c, d)
  }

  ghost predicate Hands(c: Channel, d: Channel, l: Lease) {
    && Evolves(c, d) && SameClock(c, d) && NoNewSegments(c, d) && AckersWithin(c, d, {})
    && LeasesPlus(c, d, l) && d.sealed == c.sealed
  }

  lemma HandedHands(c: Channel, p: nat, l: Lease)
    requires p < |c.queues| && c.queues[p] != [] && c.queues[p][0] in c.segs
    ensures Hands(c, Handed(c, p, l), l)
  {
  }

  lemma HandedKeeps(c: Channel, p: nat, l: Lease)
    requires Valid(c) && p < |c.queues| && c.queues[p] != []
    ensures c.queues[p][0] in c.segs && !c.segs[c.queues[p][0]].released
    ensures Leases(c, Handed(c, p, l), l)
  {
    HeadPlaced(c, p);
    HandedPlaces(c, p, l);
    HandedLists(c, p, l);
    HandedBarrier(c, p, l);
    HandedHands(c, p, l);
    CountersKept(c, Handed(c, p, l));
  }

  lemma CopiedPlaces(c: Channel, a: AppendId, l: Lease)
    requires Placement(c) && c.spec.IsBroadcast() && a in c.segs && !c.segs[a].released && a !in c.held
    ensures Placement(Copied(c, a, l))
  {
    var d := Copied(c, a, l);
    assert Placed(c, a);
    forall b | b in d.segs ensures Placed(d, b) && d.segs[b].meta.append == b { assert Placed(c, b); }
  }

  lemma CopiedKeeps(c: Channel, a: AppendId, l: Lease)
    requires Valid(c) && c.spec.IsBroadcast() && a in c.segs && !c.segs[a].released && a !in c.held
    ensures Leases(c, Copied(c, a, l), l)
  {
    CopiedPlaces(c, a, l);
    CountersKept(c, Copied(c, a, l));
  }

  lemma AckedPlaces(c: Channel, a: AppendId, l: Lease, k: Acker)
    requires Placement(c) && a in c.segs && l in c.segs[a].delivered
    ensures Places(Acked(c, a, l, k))
  {
    var d := Acked(c, a, l, k);
    assert Placed(c, a);
    forall b | b in d.segs ensures Placed(d, b) && d.segs[b].meta.append == b { assert Placed(c, b); }
  }

  lemma AckedLists(c: Channel, a: AppendId, l: Lease, k: Acker)
    requires Placement(c) && a in c.segs
    ensures Queues(Acked(c, a, l, k)) && Lists(Acked(c, a, l, k)) && KeysUnique(Acked(c, a, l, k))
  {
  }

  lemma AckedBarrier(c: Channel, a: AppendId, l: Lease, k: Acker)
    requires Barrier(c) && a in c.segs
    ensures Barrier(Acked(c, a, l, k))
  {
  }

  lemma AckedChanges(c: Channel, a: AppendId, l: Lease, k: Acker)
    requires a in c.segs
    ensures Keeps(c, Acked(c, a, l, k), {k})
  {
  }

  lemma AckedKeeps(c: Channel, a: AppendId, l: Lease, k: Acker)
    requires Valid(c) && a in c.segs && l in c.segs[a].delivered
    ensures CalmBut(c, Acked(c, a, l, k), {k})
  {
    AckedPlaces(c, a, l, k);
    AckedLists(c, a, l, k);
    AckedBarrier(c, a, l, k);
    AckedChanges(c, a, l, k);
    assert Placed(c, a);
    if !c.spec.IsBroadcast() { CountersAcked(c, Acked(c, a, l, k), a); }
  }

  // --- giving deliveries back ------------------------------------------------------------

  /** A leased segment of a partitioned channel is nowhere but in flight. */
  lemma LeasedPlaced(c: Channel, a: AppendId, l: Lease)
    requires Placement(c) && !c.spec.IsBroadcast() && a in c.segs && l in c.segs[a].delivered
    ensures 0 <= c.segs[a].meta.part < |c.queues| && a !in c.queues[c.segs[a].meta.part] && a !in c.held && a in c.inflight
    ensures c.segs[a].delivered == {l} && !c.segs[a].released && !c.segs[a].lost && c.segs[a].acked == {}
  {
    assert Placed(c, a);
  }

  /** What Returned and Nacked share on a partitioned channel. */
  ghost predicate GivenBack(c: Channel, d: Channel, a: AppendId) {
    && a in c.segs && d.segs.Keys == c.segs.Keys
    && d.spec == c.spec && d.finite == c.finite && d.sealed == c.sealed && d.epoch == c.epoch && d.held == c.held && d.log == c.log && d.all == c.all
    && d.inflight == c.inflight - {a} && d.queues == Requeue(c, a, c.segs[a].meta.part) && d.cursor == c.cursor
    && d.segs[a].delivered == {} && d.segs[a].meta == c.segs[a].meta && d.segs[a].acked == c.segs[a].acked
    && d.segs[a].released == c.segs[a].released && d.segs[a].lost == c.segs[a].lost
    && (forall b | b in c.segs && b != a :: d.segs[b] == c.segs[b])
  }

  lemma GivenBackPlaces(c: Channel, d: Channel, a: AppendId, l: Lease)
    requires Placement(c) && !c.spec.IsBroadcast() && a in c.segs && l in c.segs[a].delivered && GivenBack(c, d, a)
    ensures Places(d)
  {
    LeasedPlaced(c, a, l);
    forall b | b in d.segs ensures Placed(d, b) && d.segs[b].meta.append == b {
      assert Placed(c, b);
      assert b != a ==> (Queued(d, b) <==> Queued(c, b));
    }
  }

  lemma GivenBackLists(c: Channel, d: Channel, a: AppendId, l: Lease)
    requires Placement(c) && !c.spec.IsBroadcast() && a in c.segs && l in c.segs[a].delivered && GivenBack(c, d, a)
    ensures Queues(d) && Lists(d) && KeysUnique(d)
  {
    LeasedPlaced(c, a, l);
    var p := c.segs[a].meta.part;
    assert forall b | b in d.queues[p] :: b == a || b in c.queues[p];
  }

  lemma GivenBackBarrier(c: Channel, d: Channel, a: AppendId, l: Lease)
    requires Placement(c) && Barrier(c) && !c.spec.IsBroadcast() && a in c.segs && l in c.segs[a].delivered && GivenBack(c, d, a)
    ensures Barrier(d)
  {
    LeasedPlaced(c, a, l);
  }

  lemma GivenBackKeeps(c: Channel, d: Channel, a: AppendId, l: Lease)
    requires Placement(c) && Barrier(c) && !c.spec.IsBroadcast() && a in c.segs && l in c.segs[a].delivered && GivenBack(c, d, a)
    ensures Placement(d) && Barrier(d)
  {
    GivenBackPlaces(c, d, a, l);
    GivenBackLists(c, d, a, l);
    GivenBackBarrier(c, d, a, l);
  }

  /** What Returned and Nacked share on a Broadcast channel. */
  lemma ReadAgainKeeps(c: Channel, d: Channel, a: AppendId, l: Lease)
    requires Placement(c) && Barrier(c) && c.spec.IsBroadcast() && a in c.segs && l in c.segs[a].delivered
    requires d == c.(segs := d.segs, inflight := InflightWithout(c, a, c.segs[a].delivered - {l}), cursor := d.cursor)
    requires d.segs.Keys == c.segs.Keys
    requires d.segs[a] == c.segs[a].(delivered := c.segs[a].delivered - {l}, retryAfter := d.segs[a].retryAfter)
    requires forall b | b in c.segs && b != a :: d.segs[b] == c.segs[b]
    requires forall p | p in d.cursor :: 0 <= d.cursor[p] <= |d.log|
    ensures Placement(d) && Barrier(d)
  {
    forall b | b in d.segs ensures Placed(d, b) && d.segs[b].meta.append == b { assert Placed(c, b); }
  }

  lemma ReturnedChanges(c: Channel, a: AppendId, l: Lease)
    requires a in c.segs
    ensures Keeps(c, Returned(c, a, l), {})
  {
  }

  lemma ReturnedKeeps(c: Channel, a: AppendId, l: Lease)
    requires Valid(c) && a in c.segs && l in c.segs[a].delivered
    ensures CalmBut(c, Returned(c, a, l), {})
  {
    var d := Returned(c, a, l);
    ReturnedChanges(c, a, l);
    CountersKept(c, d);
    if c.spec.IsBroadcast() {
      ReadAgainKeeps(c, d, a, l);
    } else {
      LeasedPlaced(c, a, l);
      GivenBackKeeps(c, d, a, l);
    }
  }

  lemma ReturnedReaders(c: Channel, a: AppendId, l: Lease)
    requires a in c.segs && l.pod !in c.cursor
    ensures ReadersKept(c, Returned(c, a, l))
  {
  }

  lemma NackedReaders(c: Channel, a: AppendId, l: Lease, retryAt: Option<int>)
    requires a in c.segs
    ensures ReadersKept(c, Nacked(c, a, l, retryAt))
  {
  }

  lemma LostReaders(c: Channel, a: AppendId)
    requires a in c.segs
    ensures ReadersKept(c, MarkedLost(c, a))
  {
  }

  lemma FreedReaders(c: Channel, a: AppendId)
    requires a in c.segs
    ensures ReadersKept(c, Freed(c, a)) && ReadersKept(c, Forgotten(c, a))
  {
  }

  lemma NackedChanges(c: Channel, a: AppendId, l: Lease, retryAt: Option<int>)
    requires a in c.segs
    ensures Keeps(c, Nacked(c, a, l, retryAt), {})
  {
  }

  lemma NackedKeeps(c: Channel, a: AppendId, l: Lease, retryAt: Option<int>)
    requires Valid(c) && a in c.segs && l in c.segs[a].delivered
    ensures CalmBut(c, Nacked(c, a, l, retryAt), {})
  {
    var d := Nacked(c, a, l, retryAt);
    NackedChanges(c, a, l, retryAt);
    CountersKept(c, d);
    if c.spec.IsBroadcast() {
      ReadAgainKeeps(c, d, a, l);
    } else {
      LeasedPlaced(c, a, l);
      GivenBackKeeps(c, d, a, l);
    }
  }

  // --- losing, releasing, forgetting, sealing ----------------------------------------------

  lemma MarkedLostPlaces(c: Channel, a: AppendId)
    requires Placement(c) && a in c.segs && !c.segs[a].released
    ensures Places(MarkedLost(c, a))
  {
    assert Placed(c, a);
    var d := MarkedLost(c, a);
    forall b | b in d.segs ensures Placed(d, b) && d.segs[b].meta.append == b {
      assert Placed(c, b);
      assert b != a ==> (Queued(d, b) <==> Queued(c, b));
    }
  }

  lemma PartInRange(c: Channel, a: AppendId)
    requires Placement(c) && a in c.segs
    ensures c.spec.IsBroadcast() || 0 <= c.segs[a].meta.part < |c.queues|
  {
    assert Placed(c, a);
  }

  lemma MarkedLostQueues(c: Channel, a: AppendId)
    requires Placement(c) && a in c.segs
    ensures Queues(MarkedLost(c, a))
  {
    hide Places, Lists, KeysUnique;
    PartInRange(c, a);
    if !c.spec.IsBroadcast() { WithoutNoDup(c.queues[c.segs[a].meta.part], a); }
  }

  lemma MarkedLostLists(c: Channel, a: AppendId)
    requires Placement(c) && a in c.segs
    ensures Lists(MarkedLost(c, a)) && KeysUnique(MarkedLost(c, a))
  {
    hide Places, Queues;
    WithoutNoDup(c.held, a);
  }

  lemma MarkedLostBarrier(c: Channel, a: AppendId)
    requires Placement(c) && Barrier(c) && a in c.segs && !c.segs[a].released
    ensures Barrier(MarkedLost(c, a))
  {
    assert Placed(c, a);
  }

  lemma MarkedLostKeeps(c: Channel, a: AppendId)
    requires Valid(c) && a in c.segs && !c.segs[a].released
    ensures CalmBut(c, MarkedLost(c, a), {})
  {
    MarkedLostDrops(c, a);
    hide Keeps, DropsNothing, Counted, Barrier, Places, Queues, Lists, KeysUnique, MarkedLost;
    MarkedLostPlaces(c, a);
    MarkedLostQueues(c, a);
    MarkedLostLists(c, a);
    MarkedLostBarrier(c, a);
  }

  lemma MarkedLostDrops(c: Channel, a: AppendId)
    requires Placement(c) && Counted(c) && a in c.segs && !c.segs[a].released
    ensures Keeps(c, MarkedLost(c, a), {}) && DropsNothing(c, MarkedLost(c, a)) && Counted(MarkedLost(c, a))
  {
    hide Queues, Lists, KeysUnique;
    assert Placed(c, a);
    CountersLost(c, MarkedLost(c, a), a);
  }

  lemma FreedPlaces(c: Channel, a: AppendId)
    requires Placement(c) && c.spec.IsBroadcast() && a in c.segs && a !in c.held && !BeyondBound(c.spec, c.segs[a].meta.epoch)
    ensures Placement(Freed(c, a))
  {
    var d := Freed(c, a);
    forall b | b in d.segs ensures Placed(d, b) && d.segs[b].meta.append == b { assert Placed(c, b); }
  }

  lemma FreedKeeps(c: Channel, a: AppendId)
    requires Valid(c) && c.spec.IsBroadcast() && a in c.segs && a !in c.held && !BeyondBound(c.spec, c.segs[a].meta.epoch)
    ensures CalmBut(c, Freed(c, a), {})
  {
    FreedPlaces(c, a);
    CountersKept(c, Freed(c, a));
  }

  lemma ForgottenPlaces(c: Channel, a: AppendId)
    requires Placement(c) && a in c.segs && c.segs[a].released
    ensures Placement(Forgotten(c, a))
  {
    var d := Forgotten(c, a);
    forall b | b in d.segs ensures Placed(d, b) && d.segs[b].meta.append == b { assert Placed(c, b); }
  }

  lemma ForgottenKeeps(c: Channel, a: AppendId)
    requires Valid(c) && a in c.segs && c.segs[a].released
    ensures CalmBut(c, Forgotten(c, a), {})
  {
    ForgottenPlaces(c, a);
    CountersKept(c, Forgotten(c, a));
  }

  lemma SealedPlaces(c: Channel)
    requires Placement(c)
    ensures Placement(Sealed(c))
  {
    var d := Sealed(c);
    forall b | b in d.segs ensures Placed(d, b) && d.segs[b].meta.append == b {
      assert Placed(c, b);
      assert Queued(d, b) <==> Queued(c, b);
    }
  }

  lemma SealedKeeps(c: Channel)
    requires Valid(c)
    ensures Valid(Sealed(c)) && Grows(c, Sealed(c)) && NoNewSegments(c, Sealed(c))
    ensures DroppedIds(Sealed(c)) == DroppedIds(c) + (if c.spec.IsSynchronous() then HeldIds(c) else {})
  {
    var d := Sealed(c);
    SealedPlaces(c);
    CountersKept(c, d);
    SealedDrops(c);
  }

  lemma SealedDrops(c: Channel)
    requires Placement(c)
    ensures DroppedIds(Sealed(c)) == DroppedIds(c) + (if c.spec.IsSynchronous() then HeldIds(c) else {})
  {
    forall a | a in c.segs && a in c.held
      ensures !c.segs[a].released && !c.segs[a].lost && c.segs[a].acked == {} && !BeyondBound(c.spec, c.segs[a].meta.epoch)
    {
      assert Placed(c, a);
    }
  }

  // --- conservation -----------------------------------------------------------------------

  ghost function RecordsIn(c: Channel, ids: set<AppendId>): int
    requires ids <= c.segs.Keys
  {
    Total(RecordsOf(c.segs), ids)
  }

  lemma AdmittedSplits(c: Channel)
    requires Placement(c) && !c.spec.IsBroadcast()
    ensures Admitted(c) == QueuedIds(c) + HeldIds(c) + c.inflight + AckedIds(c) + LostIds(c) + DroppedIds(c)
    ensures QueuedIds(c) !! HeldIds(c) !! c.inflight !! AckedIds(c) !! LostIds(c) !! DroppedIds(c)
  {
    forall a | a in c.segs
      ensures a in Admitted(c) <==> a in QueuedIds(c) + HeldIds(c) + c.inflight + AckedIds(c) + LostIds(c) + DroppedIds(c)
      ensures a in c.inflight || a in QueuedIds(c) || a in HeldIds(c) ==> a !in AckedIds(c) + LostIds(c) + DroppedIds(c)
      ensures !(a in QueuedIds(c) && a in HeldIds(c)) && !(a in QueuedIds(c) && a in c.inflight) && !(a in HeldIds(c) && a in c.inflight)
      ensures !(a in AckedIds(c) && a in LostIds(c))
    {
      assert Placed(c, a);
    }
  }

  /**
   Conservation: every record produced on a partitioned channel is pending,
   held, in flight, acknowledged, lost or was dropped at a seal; nothing was
   dropped unless the channel is a Synchronous loop that was sealed.
   */
  lemma Conservation(c: Channel)
    requires Valid(c) && !c.spec.IsBroadcast() && c.spec.to.Some?
    ensures c.produced == RecordsIn(c, QueuedIds(c)) + RecordsIn(c, HeldIds(c)) + RecordsIn(c, c.inflight)
                          + c.acknowledged + c.lost + RecordsIn(c, DroppedIds(c))
    ensures !(c.sealed && c.spec.IsSynchronous()) ==> DroppedIds(c) == {}
  {
    forall a | a in DroppedIds(c) ensures c.sealed && c.spec.IsSynchronous() { assert Placed(c, a); }
    AdmittedSplits(c);
    var w := RecordsOf(c.segs);
    var q, h, f, k, x, d := QueuedIds(c), HeldIds(c), c.inflight, AckedIds(c), LostIds(c), DroppedIds(c);
    TotalUnion(w, q, h);
    TotalUnion(w, q + h, f);
    TotalUnion(w, q + h + f, k);
    TotalUnion(w, q + h + f + k, x);
    TotalUnion(w, q + h + f + k + x, d);
  }

  /** A segment that is neither released nor lost is in exactly one place, and there once. */
  lemma InOnePlace(c: Channel, a: AppendId)
    requires Valid(c) && !c.spec.IsBroadcast() && a in c.segs
    ensures !c.segs[a].released ==>
      || (a in QueuedIds(c) && a !in c.inflight && a !in c.held)
      || (a !in QueuedIds(c) && a in c.inflight && a !in c.held)
      || (a !in QueuedIds(c) && a !in c.inflight && a in c.held)
    ensures c.segs[a].released ==> a !in c.inflight && a !in c.held && forall p | 0 <= p < |c.queues| :: a !in c.queues[p]
    ensures forall p, i, r, j | 0 <= p < |c.queues| && 0 <= i < |c.queues[p]| && 0 <= r < |c.queues| && 0 <= j < |c.queues[r]| ::
      c.queues[p][i] == a && c.queues[r][j] == a ==> p == r && i == j
  {
    assert Placed(c, a);
    forall p | 0 <= p < |c.queues| && a in c.queues[p] ensures Queued(c, a) { assert c.segs[a].meta.part == p; }
    forall p, i, r, j | 0 <= p < |c.queues| && 0 <= i < |c.queues[p]| && 0 <= r < |c.queues| && 0 <= j < |c.queues[r]|
      && c.queues[p][i] == a && c.queues[r][j] == a
      ensures p == r && i == j
    {
      assert a in c.queues[p] && a in c.queues[r];
      assert NoDup(c.queues[p]);
    }
  }
}
