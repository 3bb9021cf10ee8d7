/** What the coordinator's invariant and steps mean over whole runs. */
module Guarantees {
  import opened Topology
  import opened Graph
  import opened Channels
  import opened Deliveries
  import opened ChannelOps
  import opened Operations
  import opened States
  import opened Termination
  import opened Expiry
  import opened Settlement
  import opened Registry
  import opened Requests
  import opened Coordination

  // --- Broadcast ----------------------------------------------------------------------------

  /**
   With `r` published replicas and never more than `r` live pods, the sweep
   releases a Broadcast segment only after the process in every cohort slot
   0..r-1 acknowledged it: no live pod has it in flight, and none is still to get it.
   */
  lemma BroadcastReleasedByAll(ch: ChannelMap, dh: ChannelMap, ops: OperationMap, h: History, n: Name, o: Name, r: nat, a: AppendId)
    requires StateOk(ch, ops, h) && AllSettled(ch, dh, ops) && n in ch && ch[n].spec.IsBroadcast() && ch[n].spec.to == Some(o)
    requires OpOf(ops, o).replicas == r && MostLive(h, o) <= r
    requires a in ch[n].segs && !ch[n].segs[a].released && a in dh[n].segs && dh[n].segs[a].released
    ensures ch[n].segs[a].acked == SlotsUpTo(r) && ch[n].segs[a].delivered == {}
    ensures forall k | 0 <= k < r :: Confirmation(n, a, k) in h.confirmed
    ensures forall p | p in OpOf(ops, o).pods :: Slot(OpOf(ops, o).pods[p].slot) in ch[n].segs[a].acked
  {
    hide Channels.Valid, EpochOk, Sticky, ValidOperation, LeasesActive, QuietChange, OnlyReleases, IsQuiet, SlotsKnown;
    assert SettledFrom(ch[n], dh[n], ConsumerOf(ops, ch[n].spec));
    assert SlotsKnown(ch[n], OpOf(ops, o)) by { assert SlotsKnown(ch[n], ConsumerOf(ops, ch[n].spec)); }
    OperationIsValid(ch, ops, h, o);
    EverySlotAcked(ch[n], OpOf(ops, o), r, a);
    NobodyHasIt(ch[n], OpOf(ops, o), r, a);
    AllConfirmed(ch[n], n, h.confirmed, r, a) by { assert Honest(ch[n], n, h.confirmed); }
  }

  /** A reader is past nothing it still needs, and never past the end. */
  lemma ReaderMissesNothing(ch: ChannelMap, ops: OperationMap, h: History, n: Name, o: Name, p: Pod, i: nat)
    requires StateOk(ch, ops, h) && n in ch && ch[n].spec.mode == Broadcast && ch[n].spec.to == Some(o)
    requires p in ch[n].cursor && i < ch[n].cursor[p]
    ensures i < |ch[n].log| && p in OpOf(ops, o).pods && ch[n].log[i] in ch[n].segs
    ensures var s, m := ch[n].segs[ch[n].log[i]], OpOf(ops, o).pods[p];
      s.released || Lease(p, m.incarnation) in s.delivered || Slot(m.slot) in s.acked
  {
    hide Channels.Valid, EpochOk, Sticky, ValidOperation, LeasesActive;
    assert SlotsKnown(ch[n], ConsumerOf(ops, ch[n].spec));
    assert Had(ch[n], ch[n].log[i], OpOf(ops, o), p);
  }

  lemma NobodyHasIt(c: Channel, o: Operation, r: int, a: AppendId)
    requires c.spec.IsBroadcast() && SlotsKnown(c, o) && ValidOperation(o) && o.nextSlot <= r && a in c.segs && c.segs[a].acked == SlotsUpTo(r)
    ensures c.segs[a].delivered == {}
  {
    forall l | l in c.segs[a].delivered ensures false { OwnSlotIsOwn(o, l.pod); }
  }

  lemma AllConfirmed(c: Channel, n: Name, confirmed: set<Confirmation>, r: int, a: AppendId)
    requires c.spec.IsBroadcast() && Honest(c, n, confirmed) && a in c.segs && c.segs[a].acked == SlotsUpTo(r)
    ensures forall k | 0 <= k < r :: Confirmation(n, a, k) in confirmed
  {
    forall k | 0 <= k < r ensures Confirmation(n, a, k) in confirmed { assert Slot(k) in SlotsUpTo(r); }
  }

  // --- Asynchronous loops -----------------------------------------------------------------------

  /**
   When the sweep seals an Asynchronous loop, the loop is dead exactly when
   detection overlooked nothing, and then it stays dead: along any run of
   requests no member is ever handed work again and nothing with a record is
   ever indexed between members.
   */
  lemma SealedLoopNeverWakes(ch: ChannelMap, run: seq<ChannelMap>, n: Name, j: nat)
    requires j < |run| && SealsFinished(ch, run[0]) && n in ch && !ch[n].sealed && run[0][n].sealed
    requires ClosedLoop(run[0], Specs(run[0]), run[0][n].spec)
    requires forall k | 0 <= k < |run| :: ChannelsValid(run[k])
    requires forall k | 0 <= k < |run| - 1 :: Step(run[k], run[k + 1])
    ensures Dead(run[0], Specs(run[0]), run[0][n].spec) <==> NothingOverlooked(run[0], n)
    ensures NothingOverlooked(run[0], n) ==> Dead(run[j], Specs(run[0]), run[0][n].spec)
    ensures NothingOverlooked(run[0], n) ==> forall op, l | OnLoopEnd(Specs(run[0]), run[0][n].spec, Some(op)) :: !Working(run[j], op, l)
  {
    hide Dead, ClosedLoop, Step, LoopFinished, Channels.Valid, OnLoopEnd, Working, NothingOverlooked, PartitionedLoop;
    ClosedIsPartitioned(run[0], Specs(run[0]), run[0][n].spec);
    FinishedLoopIsDeadExactly(run[0], n);
    if !NothingOverlooked(run[0], n) { return; }
    DeadForever(run, Specs(run[0]), run[0][n].spec, 0, j);
    ClosedIsPartitioned(run[j], Specs(run[0]), run[0][n].spec);
    forall op, l | OnLoopEnd(Specs(run[0]), run[0][n].spec, Some(op)) ensures !Working(run[j], op, l) {
      DeadHoldsNoWork(run[j], Specs(run[0]), run[0][n].spec, op, l);
    }
  }

  lemma ClosedIsPartitioned(ch: ChannelMap, specs: set<Spec>, s: Spec)
    requires ClosedLoop(ch, specs, s)
    ensures PartitionedLoop(ch, specs, s)
  {
  }

  // --- completion -----------------------------------------------------------------------------------

  /** A sealed channel without work stays without work. */
  lemma {:induction false} DrainedForever(run: seq<ChannelMap>, n: Name, i: nat, j: nat)
    requires i <= j < |run| && n in run[i] && run[i][n].sealed && Empty(run[i][n])
    requires forall k | 0 <= k < |run| - 1 :: Step(run[k], run[k + 1])
    ensures n in run[j] && run[j][n].sealed && Empty(run[j][n])
    decreases j
  {
    hide Step, Empty;
    if i < j {
      DrainedForever(run, n, i, j - 1);
      assert Step(run[j - 1], run[j - 1 + 1]);
      DrainedStep(run[j - 1], run[j], n);
    }
  }

  lemma DrainedStep(ch: ChannelMap, dh: ChannelMap, n: Name)
    requires Step(ch, dh) && n in ch && ch[n].sealed && Empty(ch[n])
    ensures n in dh && dh[n].sealed && Empty(dh[n])
  {
    StepKeepsSealed(ch, dh, n);
    forall a | a in dh[n].segs ensures dh[n].segs[a].released || dh[n].segs[a].meta.records == 0 {
      assert SegmentEvolves(ch[n].segs[a], dh[n].segs[a]);
    }
  }

  lemma StepKeepsSealed(ch: ChannelMap, dh: ChannelMap, n: Name)
    requires Step(ch, dh) && n in ch && ch[n].sealed
    ensures n in dh && Evolves(ch[n], dh[n]) && NoNewSegments(ch[n], dh[n])
  {
    hide Evolves, Working, MayProduce, HasInbound;
    if !NoNewWork(ch, dh) {
      var m, op, l :| PublishStep(ch, dh, m, op, l);
    }
  }

  /** Queue, flight and hold of a sealed partitioned channel are empty of records exactly when it is drained. */
  lemma DrainedMeansEmpty(c: Channel)
    requires Channels.Valid(c) && !c.spec.IsBroadcast()
    ensures Empty(c) <==> forall a | a in QueuedIds(c) + HeldIds(c) + c.inflight :: a in c.segs && c.segs[a].meta.records == 0
  {
    forall a | a in c.segs
      ensures !c.segs[a].released <==> a in QueuedIds(c) + HeldIds(c) + c.inflight
    {
      assert Placed(c, a);
    }
    assert c.inflight <= c.segs.Keys;
  }

  // --- processes ----------------------------------------------------------------------------------------

  /** A replaced process is never active again. */
  lemma {:induction false} RetiredForever(run: seq<OperationMap>, op: Name, l: Lease, i: nat, j: nat)
    requires i <= j < |run| && (l.pod, l.incarnation) in OpOf(run[i], op).retired
    requires forall k | 0 <= k < |run| :: OperationsValid(run[k])
    requires forall k | 0 <= k < |run| - 1 :: RetiredGrows(run[k], run[k + 1])
    ensures (l.pod, l.incarnation) in OpOf(run[j], op).retired && !Active(OpOf(run[j], op), l)
    decreases j
  {
    if i < j {
      RetiredForever(run, op, l, i, j - 1);
      assert RetiredGrows(run[j - 1], run[j - 1 + 1]);
    }
    assert OperationsValid(run[j]);
    assert op in run[j] ==> ActiveNotRetired(run[j][op]);
  }

  /** Two deliveries of one hash partition go to different processes only if the first one ended in between. */
  lemma HashWorkIsSticky(ch: ChannelMap, ops: OperationMap, h: History, i: nat, j: nat)
    requires StateOk(ch, ops, h) && i < j < |h.trace| && h.trace[i].Gave? && h.trace[j].Gave?
    requires h.trace[i].op == h.trace[j].op && h.trace[i].key == h.trace[j].key && h.trace[i].lease != h.trace[j].lease
    ensures exists k :: i < k < j && h.trace[k] == Gone(h.trace[i].op, h.trace[i].lease)
  {
    hide Channels.Valid, EpochOk, ValidOperation, LeasesActive, SlotsKnown;
    assert EndedAfter(h.trace, i, j);
    var k :| 0 <= i < k < j <= |h.trace| && h.trace[i].Gave? && h.trace[k] == Gone(h.trace[i].op, h.trace[i].lease);
  }

  /** A leased segment of a partitioned channel is leased to exactly one process, live and active. */
  lemma ExclusiveLease(ch: ChannelMap, ops: OperationMap, h: History, n: Name, a: AppendId, l: Lease, m: Lease)
    requires StateOk(ch, ops, h) && n in ch && !ch[n].spec.IsBroadcast() && a in ch[n].segs
    requires l in ch[n].segs[a].delivered && m in ch[n].segs[a].delivered
    ensures l == m && Active(ConsumerOf(ops, ch[n].spec), l)
    ensures (l.pod, l.incarnation) !in ConsumerOf(ops, ch[n].spec).retired
  {
    hide EpochOk, Sticky, SlotsKnown, SlotsPartitioned, OwnersLive;
    assert Channels.Valid(ch[n]) && Placed(ch[n], a);
    assert LeasesActive(ch[n], ConsumerOf(ops, ch[n].spec));
  }
}
