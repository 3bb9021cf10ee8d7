/**
 Processes that go away: an expired pod gives its deliveries back and takes
 with it what only its own disk holds; a replaced process gives its deliveries back.
 */
module Expiry {
  import opened Topology
  import Graph
  import opened Channels
  import opened Deliveries
  import opened ChannelOps
  import opened Operations
  import opened States
  import opened Termination

  /** How long a pod may stay silent before it is considered gone. */
  const PodTTL := 20

  // --- channel by channel ------------------------------------------------------------------

  /** Every delivery of an active process goes back. */
  method ReturnProcess(c: Channel, l: Lease, all: bool, ghost o: Operation) returns (d: Channel)
    requires Channels.Valid(c) && LeasesActive(c, o) && OneLeasePerPod(c) && Active(o, l)
    ensures QuietChange(c, d) && NoLeaseIn(d, l.pod) && SameKind(c, d) && Mourned(c, d, {}) && QueuesEndWith(c, d) && OthersKeep(c, d, {l.pod})
  {
    hide Channels.Valid, LeasesActive, OneLeasePerPod, LeasesDropped, QueuesEndWith, CalmBut, QuietChange, NoLeaseIn, Active, SameKind, Mourned, OthersKeep;
    d := ReturnDeliveries(c, l.pod, l.incarnation, all);
    CalmFacts(c, d, {});
    ReturnMourned(c, d, l.pod, l.incarnation, all);
    ReturnKeepsOthers(c, d, l.pod, l.incarnation, all);
    CalmIsQuiet(c, d);
    ReturnedAll(c, d, o, l, all);
  }

  /** Only these pods gave deliveries back; another lease ends only with a lost segment. */
  ghost predicate OthersKeep(c: Channel, d: Channel, pods: set<Pod>) {
    forall a, m | a in c.segs && m in c.segs[a].delivered && m.pod !in pods :: a in d.segs && (m in d.segs[a].delivered || d.segs[a].lost)
  }

  ghost function PodsInto(to: Option<Name>, gone: set<(Name, Pod)>): set<Pod> {
    set v | v in gone && to == Some(v.0) :: v.1
  }

  /** On every channel only the pods of its consumer that are gone gave deliveries back. */
  ghost predicate AllOthersKeep(ch: ChannelMap, dh: ChannelMap, gone: set<(Name, Pod)>) {
    ch.Keys == dh.Keys && forall n | n in ch :: OthersKeep(ch[n], dh[n], PodsInto(ch[n].spec.to, gone))
  }

  lemma ReturnKeepsOthers(c: Channel, d: Channel, pod: Pod, incarnation: Incarnation, all: bool)
    requires c.segs.Keys == d.segs.Keys && LeasesDropped(c, d, c.inflight, pod, incarnation, all)
    ensures OthersKeep(c, d, {pod})
  {
  }

  lemma LostKeepsOthers(c: Channel, d: Channel, pod: Pod)
    requires c.segs.Keys == d.segs.Keys && LostExactly(c, d, c.all, pod)
    ensures OthersKeep(c, d, {})
  {
  }

  lemma OthersKeepAll(c: Channel, pods: set<Pod>)
    ensures OthersKeep(c, c, pods)
  {
  }

  lemma EveryoneKeeps(ch: ChannelMap)
    ensures AllOthersKeep(ch, ch, {})
  {
  }

  lemma OthersTransitive(c: Channel, d: Channel, e: Channel, p: set<Pod>, q: set<Pod>)
    requires OthersKeep(c, d, p) && OthersKeep(d, e, q) && Evolves(d, e)
    ensures OthersKeep(c, e, p + q)
  {
    forall a | a in d.segs ensures a in e.segs && SegmentEvolves(d.segs[a], e.segs[a]) {}
  }

  lemma AllOthersTransitive(ch: ChannelMap, dh: ChannelMap, eh: ChannelMap, p: set<(Name, Pod)>, q: set<(Name, Pod)>)
    requires AllOthersKeep(ch, dh, p) && AllOthersKeep(dh, eh, q) && Quietly(ch, dh) && Quietly(dh, eh)
    ensures AllOthersKeep(ch, eh, p + q)
  {
    hide OthersKeep, Channels.Valid, Evolves;
    forall n | n in ch ensures OthersKeep(ch[n], eh[n], PodsInto(ch[n].spec.to, p + q)) {
      assert QuietChange(ch[n], dh[n]) && QuietChange(dh[n], eh[n]);
      KindKept(ch[n], dh[n]);
      OthersTransitive(ch[n], dh[n], eh[n], PodsInto(ch[n].spec.to, p), PodsInto(ch[n].spec.to, q));
      assert PodsInto(ch[n].spec.to, p + q) == PodsInto(ch[n].spec.to, p) + PodsInto(ch[n].spec.to, q);
    }
  }

  lemma KindKept(c: Channel, d: Channel)
    requires Evolves(c, d)
    ensures d.spec == c.spec
  {
  }

  ghost predicate SameKind(c: Channel, d: Channel) {
    d.spec == c.spec && d.sealed == c.sealed && d.finite == c.finite
  }

  ghost predicate Perishable(s: Segment, gone: set<Pod>) {
    s.meta.producer in gone && !s.meta.durable && !s.released && !s.lost
  }

  /** Exactly the unreleased segments that only the gone pods hold are lost; no other segment is released. */
  ghost predicate Mourned(c: Channel, d: Channel, gone: set<Pod>) {
    && d.all == c.all && d.segs.Keys == c.segs.Keys
    && (forall a | a in c.segs && d.segs[a].lost && !c.segs[a].lost :: Perishable(c.segs[a], gone))
    && (forall a | a in c.segs && d.segs[a].released && !c.segs[a].released :: d.segs[a].lost)
    && (forall a | a in c.all && a in c.segs && Perishable(c.segs[a], gone) :: d.segs[a].lost)
  }

  ghost predicate AllMourned(ch: ChannelMap, dh: ChannelMap, gone: set<Pod>) {
    ch.Keys == dh.Keys && forall n | n in ch :: Mourned(ch[n], dh[n], gone)
  }

  lemma MournedTransitive(c: Channel, d: Channel, e: Channel, p: set<Pod>, q: set<Pod>)
    requires Mourned(c, d, p) && Mourned(d, e, q) && Evolves(c, d) && Evolves(d, e)
    ensures Mourned(c, e, p + q)
  {
    forall a | a in c.segs ensures SegmentEvolves(c.segs[a], d.segs[a]) && SegmentEvolves(d.segs[a], e.segs[a]) {}
  }

  lemma AllMournedTransitive(ch: ChannelMap, dh: ChannelMap, eh: ChannelMap, p: set<Pod>, q: set<Pod>)
    requires AllMourned(ch, dh, p) && AllMourned(dh, eh, q) && Quietly(ch, dh) && Quietly(dh, eh)
    ensures AllMourned(ch, eh, p + q)
  {
    hide Mourned, Channels.Valid, Evolves;
    forall n | n in ch ensures Mourned(ch[n], eh[n], p + q) {
      assert QuietChange(ch[n], dh[n]) && QuietChange(dh[n], eh[n]);
      MournedTransitive(ch[n], dh[n], eh[n], p, q);
    }
  }

  lemma NoneMourned(c: Channel)
    ensures Mourned(c, c, {})
  {
  }

  lemma NobodyMourned(ch: ChannelMap)
    ensures AllMourned(ch, ch, {})
  {
  }

  lemma ReturnMourned(c: Channel, d: Channel, pod: Pod, incarnation: Incarnation, all: bool)
    requires c.segs.Keys == d.segs.Keys && d.all == c.all && LeasesDropped(c, d, c.inflight, pod, incarnation, all)
    ensures Mourned(c, d, {})
  {
    forall a | a in c.segs ensures d.segs[a].lost == c.segs[a].lost && d.segs[a].released == c.segs[a].released {}
  }

  lemma LostMourned(c: Channel, d: Channel, pod: Pod)
    requires c.segs.Keys == d.segs.Keys && d.all == c.all && LostExactly(c, d, c.all, pod)
    ensures Mourned(c, d, {pod})
  {
  }

  ghost predicate NoLeaseIn(c: Channel, pod: Pod) {
    && (forall a, l | a in c.segs && l in c.segs[a].delivered :: l.pod != pod)
    && (c.spec.IsBroadcast() && pod in c.cursor ==> c.cursor[pod] <= 0)
  }

  lemma NoLeaseAnywhere(ch: ChannelMap, op: Name, pod: Pod)
    requires forall n | n in ch && ch[n].spec.to == Some(op) :: NoLeaseIn(ch[n], pod)
    ensures NoLeaseOf(ch, op, pod)
  {
  }

  lemma CalmFacts(c: Channel, d: Channel, k: set<Acker>)
    requires CalmBut(c, d, k)
    ensures LeasesWithin(c, d) && SameKind(c, d) && c.segs.Keys == d.segs.Keys
  {
  }

  lemma StateIsValid(ch: ChannelMap, ops: OperationMap, h: History)
    requires StateOk(ch, ops, h)
    ensures ChannelsValid(ch) && forall n | n in ch :: Channels.Valid(ch[n])
  {
  }

  lemma ActiveLeasesOnly(ch: ChannelMap, ops: OperationMap, h: History, n: Name, op: Name, l: Lease)
    requires StateOk(ch, ops, h) && n in ch && ch[n].spec.to == Some(op)
    ensures LeasesActive(ch[n], OpOf(ops, op)) && OneLeasePerPod(ch[n])
  {
    hide Channels.Valid, EpochOk, Sticky, ValidOperation;
    assert LeasesActive(ch[n], ConsumerOf(ops, ch[n].spec));
    forall a, k, m | a in ch[n].segs && k in ch[n].segs[a].delivered && m in ch[n].segs[a].delivered && k.pod == m.pod ensures k == m {
      assert Active(OpOf(ops, op), k) && Active(OpOf(ops, op), m);
      assert k == Lease(k.pod, k.incarnation) && m == Lease(m.pod, m.incarnation);
    }
  }

  lemma ReturnedAll(c: Channel, d: Channel, o: Operation, l: Lease, all: bool)
    requires LeasesActive(c, o) && Active(o, l) && LeasesWithin(c, d) && d.cursor == c.cursor - {l.pod}
    requires forall a, m | a in d.segs && m in d.segs[a].delivered :: !OwnedBy(m, l.pod, l.incarnation, all)
    ensures NoLeaseIn(d, l.pod)
  {
    forall a, m | a in d.segs && m in d.segs[a].delivered ensures m.pod != l.pod {
      assert m in c.segs[a].delivered && Active(o, m) && !OwnedBy(m, l.pod, l.incarnation, all);
    }
  }

  lemma QuietReflexive(c: Channel)
    requires Channels.Valid(c)
    ensures QuietChange(c, c) && SameKind(c, c)
  {
  }

  ghost predicate NoSeals(ch: ChannelMap, dh: ChannelMap) {
    ch.Keys == dh.Keys && forall n | n in ch :: SameKind(ch[n], dh[n])
  }

  lemma SameKinds(ch: ChannelMap, dh: ChannelMap)
    requires ch.Keys == dh.Keys && forall n | n in dh :: SameKind(ch[n], dh[n])
    ensures NoSeals(ch, dh) && forall n | n in ch :: dh[n].spec == ch[n].spec
  {
  }

  // --- processes that go away ---------------------------------------------------------------

  /** What the end of a process of `op` makes of one channel. */
  ghost predicate GaveBack(c: Channel, d: Channel, op: Name, pod: Pod) {
    && QuietChange(c, d) && SameKind(c, d) && Mourned(c, d, {})
    && (c.spec.to == Some(op) ==> NoLeaseIn(d, pod))
    && OthersKeep(c, d, PodsInto(c.spec.to, {(op, pod)}))
  }

  method ReturnOn(c: Channel, l: Lease, all: bool, op: Name, ghost o: Operation) returns (d: Channel)
    requires Channels.Valid(c) && (c.spec.to == Some(op) ==> LeasesActive(c, o) && OneLeasePerPod(c) && Active(o, l))
    ensures GaveBack(c, d, op, l.pod)
  {
    hide Channels.Valid, QuietChange, SameKind, Mourned, NoLeaseIn, OthersKeep, LeasesActive, OneLeasePerPod, Active, QueuesEndWith;
    d := c;
    if c.spec.to == Some(op) {
      d := ReturnProcess(c, l, all, o);
      assert PodsInto(c.spec.to, {(op, l.pod)}) == {l.pod};
    } else {
      QuietReflexive(c);
      NoneMourned(c);
      OthersKeepAll(c, PodsInto(c.spec.to, {(op, l.pod)}));
    }
  }

  lemma AllGaveBack(ch: ChannelMap, dh: ChannelMap, op: Name, pod: Pod)
    requires ch.Keys == dh.Keys && forall n | n in ch :: GaveBack(ch[n], dh[n], op, pod)
    ensures Quietly(ch, dh) && NoLeaseOf(dh, op, pod) && NoSeals(ch, dh) && AllMourned(ch, dh, {}) && AllOthersKeep(ch, dh, {(op, pod)})
  {
    hide QuietChange, SameKind, Mourned, NoLeaseIn, OthersKeep, NoLeaseOf;
    forall n | n in ch ensures dh[n].spec == ch[n].spec { KindSame(ch[n], dh[n]); }
    NoLeaseAnywhere(dh, op, pod);
  }

  lemma KindSame(c: Channel, d: Channel)
    requires SameKind(c, d)
    ensures d.spec == c.spec
  {
  }

  /** Returns the unfinished work of one process on every channel into its operation. */
  method ReturnConsumerDeliveries(ch: ChannelMap, ghost ops: OperationMap, ghost h: History, op: Name, l: Lease, all: bool)
    returns (dh: ChannelMap)
    requires StateOk(ch, ops, h) && Active(OpOf(ops, op), l)
    ensures Quietly(ch, dh) && NoLeaseOf(dh, op, l.pod) && NoSeals(ch, dh) && AllMourned(ch, dh, {}) && AllOthersKeep(ch, dh, {(op, l.pod)})
  {
    hide StateOk, LeasesActive, OneLeasePerPod, Active, OpOf, GaveBack;
    StateIsValid(ch, ops, h);
    dh := map[];
    var rest := ch.Keys;
    while rest != {}
      invariant rest <= ch.Keys && dh.Keys == ch.Keys - rest
      invariant forall n | n in dh :: GaveBack(ch[n], dh[n], op, l.pod)
      decreases rest
    {
      var n :| n in rest;
      rest := rest - {n};
      if ch[n].spec.to == Some(op) { ActiveLeasesOnly(ch, ops, h, n, op, l); }
      var d := ReturnOn(ch[n], l, all, op, OpOf(ops, op));
      dh := dh[n := d];
    }
    AllGaveBack(ch, dh, op, l.pod);
  }

  lemma ExpiredHolderIsQuiet(c: Channel, d: Channel)
    requires CalmBut(c, d, {}) && ReadersKept(c, d)
    ensures QuietChange(c, d) && SameKind(c, d) && c.segs.Keys == d.segs.Keys
  {
  }

  lemma QuietNoLease(ch: ChannelMap, dh: ChannelMap, op: Name, pod: Pod)
    requires Quietly(ch, dh) && NoLeaseOf(ch, op, pod)
    ensures NoLeaseOf(dh, op, pod)
  {
    hide Channels.Valid;
    forall n, a, l | n in dh && dh[n].spec.to == Some(op) && a in dh[n].segs && l in dh[n].segs[a].delivered ensures l.pod != pod {
      assert QuietChange(ch[n], dh[n]);
      assert a in ch[n].segs && l in ch[n].segs[a].delivered;
    }
  }

  /** Marks lost what only the gone pod's disk holds, on every channel. */
  method ExpireHolders(ch: ChannelMap, pod: Pod) returns (dh: ChannelMap)
    requires ChannelsValid(ch)
    ensures Quietly(ch, dh) && NoSeals(ch, dh) && AllMourned(ch, dh, {pod}) && AllOthersKeep(ch, dh, {})
  {
    hide Channels.Valid, QuietChange, SameKind, CalmBut, LostExactly, Mourned, OthersKeep;
    dh := map[];
    var rest := ch.Keys;
    while rest != {}
      invariant rest <= ch.Keys && dh.Keys == ch.Keys - rest
      invariant forall n | n in dh :: QuietChange(ch[n], dh[n]) && SameKind(ch[n], dh[n]) && Mourned(ch[n], dh[n], {pod})
      invariant forall n | n in dh :: OthersKeep(ch[n], dh[n], PodsInto(ch[n].spec.to, {}))
      decreases rest
    {
      var n :| n in rest;
      rest := rest - {n};
      var d := ExpireHolder(ch[n], pod);
      ExpiredHolderIsQuiet(ch[n], d);
      LostMourned(ch[n], d, pod);
      LostKeepsOthers(ch[n], d, pod);
      assert PodsInto(ch[n].spec.to, {}) == {};
      dh := dh[n := d];
    }
    SameKinds(ch, dh);
  }

  /** A pod that stopped heartbeating leaves: its deliveries return and what it held is lost. */
  method ExpirePod(ch: ChannelMap, ops: OperationMap, ghost h: History, op: Name, pod: Pod)
    returns (dh: ChannelMap, dps: OperationMap, ghost g: History)
    requires StateOk(ch, ops, h) && op in ops && pod in ops[op].pods
    ensures StateOk(dh, dps, g) && Quietly(ch, dh) && NoSeals(ch, dh) && AllMourned(ch, dh, {pod}) && AllOthersKeep(ch, dh, {(op, pod)})
    ensures dps == ops[op := Left(ops[op], pod)]
    ensures g == h.(trace := h.trace + [Gone(op, Lease(pod, ops[op].pods[pod].incarnation))])
  {
    hide StateOk, Quietly, NoLeaseOf, NoSeals, Left, ValidOperation, AllMourned, AllOthersKeep;
    var l := Lease(pod, ops[op].pods[pod].incarnation);
    var mid := ReturnConsumerDeliveries(ch, ops, h, op, l, true);
    QuietlyKeeps(ch, mid, ops, h);
    StateIsValid(mid, ops, h);
    dh := ExpireHolders(mid, pod);
    QuietlyKeeps(mid, dh, ops, h);
    QuietlyTransitive(ch, mid, dh);
    NoSealsTransitive(ch, mid, dh);
    AllMournedTransitive(ch, mid, dh, {}, {pod});
    assert {} + {pod} == {pod};
    AllOthersTransitive(ch, mid, dh, {(op, pod)}, {});
    assert {(op, pod)} + {} == {(op, pod)};
    QuietNoLease(mid, dh, op, pod);
    OperationIsValid(dh, ops, h, op);
    LeftKeeps(ops[op], pod);
    LeftFacts(ops[op], l);
    dps := ops[op := Left(ops[op], pod)];
    ProcessEndKeeps(dh, ops, h, op, l, Left(ops[op], pod));
    g := h.(trace := h.trace + [Gone(op, l)]);
  }

  lemma OperationIsValid(ch: ChannelMap, ops: OperationMap, h: History, op: Name)
    requires StateOk(ch, ops, h)
    ensures ValidOperation(OpOf(ops, op))
  {
  }

  lemma LeftFacts(o: Operation, l: Lease)
    requires l.pod in o.pods
    ensures Left(o, l.pod).nextSlot == o.nextSlot && |Left(o, l.pod).pods| <= |o.pods|
    ensures forall k | k in o.pinned && k in o.owner && o.owner[k] != l.pod ::
      k in Left(o, l.pod).pinned && k in Left(o, l.pod).owner && Left(o, l.pod).owner[k] == o.owner[k]
    ensures forall m | Active(o, m) && m.pod != l.pod :: Active(Left(o, l.pod), m) && Left(o, l.pod).pods[m.pod].slot == o.pods[m.pod].slot
    ensures Left(o, l.pod).pods == o.pods - {l.pod}
  {
    assert (o.pods - {l.pod}).Keys == o.pods.Keys - {l.pod};
    assert |o.pods.Keys - {l.pod}| == |o.pods.Keys| - 1;
  }

  lemma NoSealsTransitive(ch: ChannelMap, dh: ChannelMap, eh: ChannelMap)
    requires NoSeals(ch, dh) && NoSeals(dh, eh)
    ensures NoSeals(ch, eh)
  {
    forall n | n in ch ensures SameKind(ch[n], eh[n]) { assert SameKind(ch[n], dh[n]) && SameKind(dh[n], eh[n]); }
  }

  /** The pods that were not heard from for the whole time to live, but for the one that is heard from right now. */
  ghost function Silent(ops: OperationMap, now: int, skip: Option<(Name, Pod)>): set<(Name, Pod)> {
    set o, p | o in ops && p in ops[o].pods && ops[o].pods[p].lastSeen + PodTTL <= now && skip != Some((o, p)) :: (o, p)
  }

  ghost function PodsOf(gone: set<(Name, Pod)>): set<Pod> {
    set v | v in gone :: v.1
  }

  /** Exactly the silent pods are gone; nothing else about the pods changed. */
  ghost predicate ExpiredExactly(ops: OperationMap, dps: OperationMap, gone: set<(Name, Pod)>) {
    && dps.Keys == ops.Keys
    && (forall o | o in ops :: dps[o].replicas == ops[o].replicas && dps[o].nextSlot == ops[o].nextSlot && dps[o].retired == ops[o].retired && dps[o].completed == ops[o].completed)
    && (forall o, p | o in ops :: p in dps[o].pods <==> p in ops[o].pods && (o, p) !in gone)
    && (forall o, p | o in ops && p in dps[o].pods :: dps[o].pods[p] == ops[o].pods[p])
    && (forall o, p | o in ops :: p in dps[o].epochDone <==> p in ops[o].epochDone && (o, p) !in gone)
    && (forall o, p | o in ops && p in dps[o].epochDone :: dps[o].epochDone[p] == ops[o].epochDone[p])
    && forall o | o in ops :: Disinherited(ops[o], dps[o], o, gone)
  }

  /** Exactly the partitions of the gone pods have no owner any more. */
  ghost predicate Disinherited(o: Operation, d: Operation, op: Name, gone: set<(Name, Pod)>) {
    && (forall k :: k in d.owner <==> k in o.owner && (op, o.owner[k]) !in gone)
    && (forall k | k in d.owner :: d.owner[k] == o.owner[k])
    && (forall k :: k in d.pinned <==> k in o.pinned && !(k in o.owner && (op, o.owner[k]) in gone))
  }

  lemma ExpiredNext(ops: OperationMap, dps: OperationMap, gone: set<(Name, Pod)>, op: Name, pod: Pod)
    requires ExpiredExactly(ops, dps, gone) && op in dps && pod in dps[op].pods
    ensures ExpiredExactly(ops, dps[op := Left(dps[op], pod)], gone + {(op, pod)})
  {
    hide Disinherited, Left;
    LeftOnly(dps[op], pod);
    forall o | o in ops ensures Disinherited(ops[o], dps[op := Left(dps[op], pod)][o], o, gone + {(op, pod)}) {
      DisinheritedNext(ops[o], dps[o], o, gone, op, pod);
    }
  }

  lemma LeftOnly(o: Operation, pod: Pod)
    requires pod in o.pods
    ensures var d := Left(o, pod);
      && d.replicas == o.replicas && d.nextSlot == o.nextSlot && d.retired == o.retired && d.completed == o.completed
      && d.pods == o.pods - {pod} && d.epochDone == o.epochDone - {pod}
  {
  }

  lemma DisinheritedNext(o: Operation, d: Operation, n: Name, gone: set<(Name, Pod)>, op: Name, pod: Pod)
    requires Disinherited(o, d, n, gone) && (n == op ==> pod in d.pods)
    ensures Disinherited(o, if n == op then Left(d, pod) else d, n, gone + {(op, pod)})
  {
  }

  /** Drops every pod that stopped heartbeating, except one that is heard from right now. */
  method ExpireAllExcept(ch: ChannelMap, ops: OperationMap, ghost h: History, now: int, skip: Option<(Name, Pod)>)
    returns (dh: ChannelMap, dps: OperationMap, ghost g: History)
    requires StateOk(ch, ops, h)
    ensures StateOk(dh, dps, g) && Quietly(ch, dh) && NoSeals(ch, dh)
    ensures ExpiredExactly(ops, dps, Silent(ops, now, skip)) && AllMourned(ch, dh, PodsOf(Silent(ops, now, skip)))
    ensures AllOthersKeep(ch, dh, Silent(ops, now, skip))
    ensures g.finished == h.finished && g.mostLive == h.mostLive && g.confirmed == h.confirmed
  {
    hide StateOk, Quietly, NoSeals, Left, ExpiredExactly, AllMourned, AllOthersKeep;
    dh, dps, g := ch, ops, h;
    NobodyMourned(ch);
    EveryoneKeeps(ch);
    StateIsValid(ch, ops, h);
    QuietlyReflexive(ch);
    NoneExpired(ch, ops);
    var cutoff := now - PodTTL;
    var gone := set o, p | o in ops && p in ops[o].pods && !(ops[o].pods[p].lastSeen > cutoff || skip == Some((o, p))) :: (o, p);
    assert gone == Silent(ops, now, skip);
    var rest := gone;
    assert gone - rest == {} && PodsOf({}) == {};
    while rest != {}
      invariant rest <= gone
      invariant StateOk(dh, dps, g) && Quietly(ch, dh) && NoSeals(ch, dh) && ExpiredExactly(ops, dps, gone - rest)
      invariant AllMourned(ch, dh, PodsOf(gone - rest)) && AllOthersKeep(ch, dh, gone - rest)
      invariant g.finished == h.finished && g.mostLive == h.mostLive && g.confirmed == h.confirmed
      decreases rest
    {
      var v :| v in rest;
      ghost var done := gone - rest;
      rest := rest - {v};
      assert gone - rest == done + {v};
      StillThere(ops, dps, done, v.0, v.1);
      ghost var dh0 := dh;
      ExpiredNext(ops, dps, done, v.0, v.1);
      dh, dps, g := ExpirePod(dh, dps, g, v.0, v.1);
      QuietlyTransitive(ch, dh0, dh);
      NoSealsTransitive(ch, dh0, dh);
      AllMournedTransitive(ch, dh0, dh, PodsOf(done), {v.1});
      AllOthersTransitive(ch, dh0, dh, done, {v});
      assert PodsOf(done + {v}) == PodsOf(done) + {v.1};
    }
    assert gone - rest == gone;
  }

  lemma NoneExpired(ch: ChannelMap, ops: OperationMap)
    ensures ExpiredExactly(ops, ops, {}) && NoSeals(ch, ch)
  {
  }

  lemma StillThere(ops: OperationMap, dps: OperationMap, gone: set<(Name, Pod)>, op: Name, pod: Pod)
    requires ExpiredExactly(ops, dps, gone) && op in ops && pod in ops[op].pods && (op, pod) !in gone
    ensures op in dps && pod in dps[op].pods
  {
  }
}
