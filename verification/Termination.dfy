/**
 Termination detection for asynchronous loops: what `settle` finds before it
 seals a loop, and why nothing can be announced inside the loop afterwards.
 Also the release rule of Broadcast channels.
 */
module Termination {
  import opened Topology
  import opened Graph
  import opened Channels
  import opened Deliveries
  import opened ChannelOps
  import opened Operations
  import opened States

  ghost function Specs(ch: ChannelMap): set<Spec> {
    set n | n in ch :: ch[n].spec
  }

  /** The channel end is one of the loop that feedback channel `s` closes. */
  ghost predicate OnLoopEnd(specs: set<Spec>, s: Spec, x: Option<Name>) {
    || x == s.from
    || x == s.to
    || (x.Some? && s.from.Some? && s.to.Some? && OnLoop(specs, s.from.value, s.to.value, x.value))
  }

  ghost predicate HoldsNothing(c: Channel) {
    forall a | a in c.held && a in c.segs :: c.segs[a].meta.records == 0
  }

  /** What channel `d` into the loop must satisfy: quiet inside, and outside also complete. */
  ghost predicate InputDone(specs: set<Spec>, s: Spec, d: Channel) {
    if OnLoopEnd(specs, s, d.spec.from) then d.spec.feedback.None? ==> IsQuiet(d)
    else d.sealed && IsQuiet(d) && HoldsNothing(d)
  }

  /** What `settle` establishes about a loop before it seals the feedback channel `n`. */
  ghost predicate LoopFinished(ch: ChannelMap, n: Name)
    requires n in ch
  {
    && IsQuiet(ch[n])
    && forall m | m in ch && m != n && OnLoopEnd(Specs(ch), ch[n].spec, ch[m].spec.to) :: InputDone(Specs(ch), ch[n].spec, ch[m])
  }

  /** Nothing with a record is left for any member, and nobody else may produce for one. */
  ghost predicate Dead(ch: ChannelMap, specs: set<Spec>, s: Spec) {
    forall m | m in ch && OnLoopEnd(specs, s, ch[m].spec.to) ::
      Empty(ch[m]) && (ch[m].sealed || OnLoopEnd(specs, s, ch[m].spec.from))
  }

  ghost predicate PartitionedLoop(ch: ChannelMap, specs: set<Spec>, s: Spec) {
    forall m | m in ch && OnLoopEnd(specs, s, ch[m].spec.to) :: !ch[m].spec.IsBroadcast()
  }

  /** Neither queued nor in flight is a segment with a record. */
  ghost predicate Idle(c: Channel) {
    forall a | a in QueuedIds(c) + c.inflight && a in c.segs :: c.segs[a].meta.records == 0
  }

  /**
   Detection does not look at what channels between members hold for a later
   epoch, nor at other feedback channels between them: there is nothing there.
   */
  ghost predicate NothingOverlooked(ch: ChannelMap, n: Name)
    requires n in ch
  {
    forall m | m in ch && OnLoopEnd(Specs(ch), ch[n].spec, ch[m].spec.to) && OnLoopEnd(Specs(ch), ch[n].spec, ch[m].spec.from) ::
      HoldsNothing(ch[m]) && (m != n && ch[m].spec.feedback.Some? ==> Idle(ch[m]))
  }

  lemma EmptyExactly(c: Channel)
    requires Valid(c) && !c.spec.IsBroadcast()
    ensures Empty(c) <==> Idle(c) && HoldsNothing(c)
    ensures IsQuiet(c) ==> Idle(c)
  {
    forall a | a in c.segs ensures !c.segs[a].released <==> a in QueuedIds(c) + c.inflight || a in c.held { assert Placed(c, a); }
  }

  /** A loop that `settle` finds finished is dead exactly when nothing was overlooked. */
  lemma FinishedLoopIsDeadExactly(ch: ChannelMap, n: Name)
    requires ChannelsValid(ch) && n in ch && LoopFinished(ch, n) && PartitionedLoop(ch, Specs(ch), ch[n].spec)
    ensures Dead(ch, Specs(ch), ch[n].spec) <==> NothingOverlooked(ch, n)
  {
    hide Valid, IsQuiet, Empty, OnLoopEnd, HoldsNothing, Idle;
    EndsOnLoop(Specs(ch), ch[n].spec);
    forall m | m in ch && OnLoopEnd(Specs(ch), ch[n].spec, ch[m].spec.to)
      ensures Empty(ch[m]) <==> Idle(ch[m]) && HoldsNothing(ch[m])
      ensures IsQuiet(ch[m]) ==> Idle(ch[m])
    {
      EmptyExactly(ch[m]);
    }
  }

  lemma EndsOnLoop(specs: set<Spec>, s: Spec)
    ensures OnLoopEnd(specs, s, s.from) && OnLoopEnd(specs, s, s.to)
  {
  }

  /** One feedback edge, and no member on finite epochs. */
  ghost predicate PlainLoop(ch: ChannelMap, n: Name)
    requires n in ch
  {
    forall m | m in ch && OnLoopEnd(Specs(ch), ch[n].spec, ch[m].spec.to) && OnLoopEnd(Specs(ch), ch[n].spec, ch[m].spec.from) ::
      !ch[m].finite && (m != n ==> ch[m].spec.feedback.None?)
  }

  /** In a graph without Synchronous loops nearby, detection overlooks nothing. */
  lemma PlainLoopOverlooksNothing(ch: ChannelMap, n: Name)
    requires ChannelsValid(ch) && n in ch && PlainLoop(ch, n)
    ensures NothingOverlooked(ch, n)
  {
    hide OnLoopEnd, Placement, Counted;
    forall m | m in ch && !ch[m].finite ensures HoldsNothing(ch[m]) { assert Valid(ch[m]); }
  }

  // --- permanence -------------------------------------------------------------------

  ghost predicate HasInbound(ch: ChannelMap, op: Name) {
    exists n :: n in ch && ch[n].spec.to == Some(op)
  }

  /** A worker flushes before it acknowledges: while it produces, it holds a delivery with records. */
  ghost predicate Working(ch: ChannelMap, op: Name, l: Lease) {
    exists n, a :: n in ch && ch[n].spec.to == Some(op) && a in ch[n].segs && l in ch[n].segs[a].delivered && ch[n].segs[a].meta.records > 0
  }

  ghost predicate Diverts(s: Spec, n: Name, op: Option<Name>) {
    s.feedback.Some? && s.feedback.value.overflow == Some(n) && s.from == op
  }

  /** The declared producer, anyone for an external channel, or a loop diverting its overflow. */
  ghost predicate MayProduce(ch: ChannelMap, n: Name, op: Option<Name>) {
    n in ch && (ch[n].spec.from.None? || ch[n].spec.from == op || exists m :: m in ch && Diverts(ch[m].spec, n, op))
  }

  ghost predicate NoNewWork(ch: ChannelMap, dh: ChannelMap) {
    ch.Keys == dh.Keys && forall n | n in ch :: Evolves(ch[n], dh[n]) && NoNewSegments(ch[n], dh[n])
  }

  /** Any accepted publish request: the coordinator does not ask whether its sender holds work. */
  ghost predicate OpenPublish(ch: ChannelMap, dh: ChannelMap, n: Name, op: Option<Name>) {
    && MayProduce(ch, n, op)
    && ch.Keys == dh.Keys
    && (forall m | m in ch :: Evolves(ch[m], dh[m]))
    && (forall m | m in ch && (m != n || ch[n].sealed) :: NoNewSegments(ch[m], dh[m]))
  }

  ghost predicate OpenStep(ch: ChannelMap, dh: ChannelMap) {
    NoNewWork(ch, dh) || exists n, op :: OpenPublish(ch, dh, n, op)
  }

  /** One of a worker that holds a delivery with records if it consumes anything. */
  ghost predicate PublishStep(ch: ChannelMap, dh: ChannelMap, n: Name, op: Option<Name>, l: Lease) {
    OpenPublish(ch, dh, n, op) && (op.Some? && HasInbound(ch, op.value) ==> Working(ch, op.value, l))
  }

  ghost predicate Step(ch: ChannelMap, dh: ChannelMap) {
    NoNewWork(ch, dh) || exists n, op, l :: PublishStep(ch, dh, n, op, l)
  }

  /** Members consume, so they produce only from work in hand. */
  ghost predicate ConsumingLoop(ch: ChannelMap, specs: set<Spec>, s: Spec) {
    && s.from.Some? && s.to.Some? && PartitionedLoop(ch, specs, s)
    && forall o | OnLoopEnd(specs, s, Some(o)) :: HasInbound(ch, o)
  }

  /** No other loop overflows into this one. */
  ghost predicate NoForeignOverflow(ch: ChannelMap, specs: set<Spec>, s: Spec) {
    forall m, n | m in ch && n in ch && OnLoopEnd(specs, s, ch[n].spec.to) && OnLoopEnd(specs, s, ch[n].spec.from)
      && ch[m].spec.feedback.Some? && ch[m].spec.feedback.value.overflow == Some(n) :: OnLoopEnd(specs, s, ch[m].spec.from)
  }

  ghost predicate ClosedLoop(ch: ChannelMap, specs: set<Spec>, s: Spec) {
    ConsumingLoop(ch, specs, s) && NoForeignOverflow(ch, specs, s)
  }

  /** An operation outside the loop that may publish on an open channel of it, and has what it needs to do so. */
  ghost predicate Intrudes(ch: ChannelMap, specs: set<Spec>, s: Spec, n: Name, op: Option<Name>, l: Lease) {
    && n in ch && OnLoopEnd(specs, s, ch[n].spec.to) && !ch[n].sealed
    && MayProduce(ch, n, op) && !OnLoopEnd(specs, s, op)
    && (op.Some? && HasInbound(ch, op.value) ==> Working(ch, op.value, l))
  }

  ghost predicate NoIntruder(ch: ChannelMap, specs: set<Spec>, s: Spec) {
    forall n, op, l :: !Intrudes(ch, specs, s, n, op, l)
  }

  lemma LeasedIsLive(c: Channel, a: AppendId, l: Lease)
    requires Valid(c) && !c.spec.IsBroadcast() && a in c.segs && l in c.segs[a].delivered
    ensures !c.segs[a].released
  {
    assert Placed(c, a);
  }

  lemma DeadHoldsNoWork(ch: ChannelMap, specs: set<Spec>, s: Spec, op: Name, l: Lease)
    requires ChannelsValid(ch) && Dead(ch, specs, s) && OnLoopEnd(specs, s, Some(op))
    requires PartitionedLoop(ch, specs, s)
    ensures !Working(ch, op, l)
  {
    hide Valid;
    forall n, a | n in ch && ch[n].spec.to == Some(op) && a in ch[n].segs && l in ch[n].segs[a].delivered
      ensures ch[n].segs[a].meta.records == 0
    {
      assert Valid(ch[n]) && Empty(ch[n]);
      LeasedIsLive(ch[n], a, l);
    }
  }

  /** A dead loop that nobody outside can publish on stays dead through any request. */
  lemma DeadStays(ch: ChannelMap, dh: ChannelMap, specs: set<Spec>, s: Spec)
    requires ChannelsValid(ch) && Dead(ch, specs, s) && ConsumingLoop(ch, specs, s) && NoIntruder(ch, specs, s) && Step(ch, dh)
    ensures Dead(dh, specs, s) && ConsumingLoop(dh, specs, s)
  {
    hide Valid, OnLoopEnd, IsQuiet;
    if !NoNewWork(ch, dh) {
      var n, op, l :| PublishStep(ch, dh, n, op, l);
      if OnLoopEnd(specs, s, ch[n].spec.to) && !ch[n].sealed {
        assert !Intrudes(ch, specs, s, n, op, l);
        assert op.Some? by { LoopEndsNamed(specs, s, op); }
        DeadHoldsNoWork(ch, specs, s, op.value, l);
        assert false;
      }
      assert forall m | m in ch && OnLoopEnd(specs, s, ch[m].spec.to) :: NoNewSegments(ch[m], dh[m]);
    }
    forall m | m in dh && OnLoopEnd(specs, s, dh[m].spec.to)
      ensures Empty(dh[m]) && (dh[m].sealed || OnLoopEnd(specs, s, dh[m].spec.from))
    {
      assert Evolves(ch[m], dh[m]) && NoNewSegments(ch[m], dh[m]) && Empty(ch[m]);
    }
    ConsumingLoopStays(ch, dh, specs, s);
  }

  /** And only such a loop: an operation outside that can publish brings it back to life. */
  lemma IntruderWakes(ch: ChannelMap, specs: set<Spec>, s: Spec, n: Name, op: Option<Name>, l: Lease, m: Announcement)
    requires ChannelsValid(ch) && Intrudes(ch, specs, s, n, op, l) && Admissible(ch[n], m) && m.records > 0 && !BeyondBound(ch[n].spec, m.epoch)
    ensures var dh := ch[n := Indexed(ch[n], m, false)]; ChannelsValid(dh) && Step(ch, dh) && !Dead(dh, specs, s)
  {
    hide Valid, OnLoopEnd, MayProduce, Working, Admissible, HasInbound;
    var d := Indexed(ch[n], m, false);
    IndexedKeeps(ch[n], m, false);
    var dh := ch[n := d];
    assert !d.segs[m.append].released && m.append in d.segs && !Empty(d);
    forall k | k in ch ensures Evolves(ch[k], dh[k]) {}
    assert PublishStep(ch, dh, n, op, l);
  }

  /** A batch that each open channel of the loop would accept. */
  ghost predicate Offers(ch: ChannelMap, specs: set<Spec>, s: Spec, batch: map<Name, Announcement>) {
    forall n | n in ch && OnLoopEnd(specs, s, ch[n].spec.to) && !ch[n].sealed ::
      n in batch && Admissible(ch[n], batch[n]) && batch[n].records > 0 && !BeyondBound(ch[n].spec, batch[n].epoch)
  }

  /** A dead loop stays dead whatever is requested exactly when no operation outside can publish on it. */
  lemma DeadStaysExactly(ch: ChannelMap, specs: set<Spec>, s: Spec, batch: map<Name, Announcement>)
    requires ChannelsValid(ch) && Dead(ch, specs, s) && ConsumingLoop(ch, specs, s) && Offers(ch, specs, s, batch)
    ensures (forall dh | Step(ch, dh) :: Dead(dh, specs, s)) <==> NoIntruder(ch, specs, s)
  {
    hide ChannelsValid, Dead, ConsumingLoop, Step, Admissible, MayProduce, Working, OnLoopEnd, HasInbound;
    if NoIntruder(ch, specs, s) {
      forall dh | Step(ch, dh) ensures Dead(dh, specs, s) { DeadStays(ch, dh, specs, s); }
    } else {
      var n, op, l :| Intrudes(ch, specs, s, n, op, l);
      IntruderWakes(ch, specs, s, n, op, l, batch[n]);
    }
  }

  // --- workers that publish with nothing in hand ----------------------------------------------

  /** No channel into a member takes segments any more. */
  ghost predicate InputsSealed(ch: ChannelMap, specs: set<Spec>, s: Spec) {
    forall m | m in ch && OnLoopEnd(specs, s, ch[m].spec.to) :: ch[m].sealed
  }

  lemma DeadStaysSealed(ch: ChannelMap, dh: ChannelMap, specs: set<Spec>, s: Spec)
    requires Dead(ch, specs, s) && InputsSealed(ch, specs, s) && OpenStep(ch, dh)
    ensures Dead(dh, specs, s) && InputsSealed(dh, specs, s)
  {
    hide OnLoopEnd, MayProduce;
    if !NoNewWork(ch, dh) { var n, op :| OpenPublish(ch, dh, n, op); }
    forall m | m in dh && OnLoopEnd(specs, s, dh[m].spec.to) ensures Empty(dh[m]) && dh[m].sealed {
      assert Evolves(ch[m], dh[m]) && NoNewSegments(ch[m], dh[m]) && Empty(ch[m]);
    }
  }

  /** The declared producer of an open channel of the loop brings it back to life, with or without work in hand. */
  lemma ProducerWakes(ch: ChannelMap, specs: set<Spec>, s: Spec, n: Name, m: Announcement)
    requires ChannelsValid(ch) && n in ch && OnLoopEnd(specs, s, ch[n].spec.to) && !ch[n].sealed
    requires Admissible(ch[n], m) && m.records > 0 && !BeyondBound(ch[n].spec, m.epoch)
    ensures var dh := ch[n := Indexed(ch[n], m, false)];
      ChannelsValid(dh) && OpenPublish(ch, dh, n, ch[n].spec.from) && !Dead(dh, specs, s)
  {
    hide Valid, OnLoopEnd, Admissible;
    var d := Indexed(ch[n], m, false);
    IndexedKeeps(ch[n], m, false);
    var dh := ch[n := d];
    assert !d.segs[m.append].released && m.append in d.segs && !Empty(d);
    forall k | k in ch ensures Evolves(ch[k], dh[k]) {}
  }

  /**
   Over all publish requests the coordinator accepts, a dead loop stays dead
   exactly when every channel into a member is sealed.
   */
  lemma DeadStaysOpenlyExactly(ch: ChannelMap, specs: set<Spec>, s: Spec, batch: map<Name, Announcement>)
    requires ChannelsValid(ch) && Dead(ch, specs, s) && Offers(ch, specs, s, batch)
    ensures (forall dh | OpenStep(ch, dh) :: Dead(dh, specs, s)) <==> InputsSealed(ch, specs, s)
  {
    hide ChannelsValid, Dead, OpenStep, OpenPublish, Admissible, OnLoopEnd;
    if InputsSealed(ch, specs, s) {
      forall dh | OpenStep(ch, dh) ensures Dead(dh, specs, s) { DeadStaysSealed(ch, dh, specs, s); }
    } else {
      var n :| n in ch && OnLoopEnd(specs, s, ch[n].spec.to) && !ch[n].sealed;
      ProducerWakes(ch, specs, s, n, batch[n]);
      OpenPublishSteps(ch, ch[n := Indexed(ch[n], batch[n], false)], n, ch[n].spec.from);
    }
  }

  lemma OpenPublishSteps(ch: ChannelMap, dh: ChannelMap, n: Name, op: Option<Name>)
    requires OpenPublish(ch, dh, n, op)
    ensures OpenStep(ch, dh)
  {
  }

  // --- disciplined workers, along a run ---------------------------------------------------------

  /** The shape of the graph rules intruders out. */
  lemma ClosedHasNoIntruder(ch: ChannelMap, specs: set<Spec>, s: Spec)
    requires ClosedLoop(ch, specs, s) && Dead(ch, specs, s)
    ensures NoIntruder(ch, specs, s)
  {
    hide OnLoopEnd, Working, HasInbound, Empty;
    forall n, op, l ensures !Intrudes(ch, specs, s, n, op, l) {
      if Intrudes(ch, specs, s, n, op, l) {
        LoopEndsNamed(specs, s, ch[n].spec.from);
        assert false;
      }
    }
  }

  lemma LoopEndsNamed(specs: set<Spec>, s: Spec, x: Option<Name>)
    requires OnLoopEnd(specs, s, x) && s.from.Some? && s.to.Some?
    ensures x.Some?
  {
  }

  lemma ConsumingLoopStays(ch: ChannelMap, dh: ChannelMap, specs: set<Spec>, s: Spec)
    requires ConsumingLoop(ch, specs, s) && ch.Keys == dh.Keys && forall m | m in ch :: dh[m].spec == ch[m].spec
    ensures ConsumingLoop(dh, specs, s) && (NoForeignOverflow(ch, specs, s) ==> NoForeignOverflow(dh, specs, s))
  {
    forall o | OnLoopEnd(specs, s, Some(o)) ensures HasInbound(dh, o) {
      var n :| n in ch && ch[n].spec.to == Some(o);
      assert n in dh && dh[n].spec.to == Some(o);
    }
  }

  lemma ClosedStays(ch: ChannelMap, dh: ChannelMap, specs: set<Spec>, s: Spec)
    requires ChannelsValid(ch) && Dead(ch, specs, s) && ClosedLoop(ch, specs, s) && Step(ch, dh)
    ensures Dead(dh, specs, s) && ClosedLoop(dh, specs, s)
  {
    hide ChannelsValid, Dead, ConsumingLoop, NoForeignOverflow, NoIntruder, Working, MayProduce;
    ClosedHasNoIntruder(ch, specs, s);
    DeadStays(ch, dh, specs, s);
    StepShape(ch, dh);
    ConsumingLoopStays(ch, dh, specs, s);
  }

  lemma StepShape(ch: ChannelMap, dh: ChannelMap)
    requires Step(ch, dh)
    ensures ch.Keys == dh.Keys && forall m | m in ch :: dh[m].spec == ch[m].spec
  {
    hide Working, MayProduce;
    if !NoNewWork(ch, dh) { var n, op, l :| PublishStep(ch, dh, n, op, l); }
  }

  /** Dead is for ever: along any run no member is ever given work again. */
  lemma {:induction false} DeadForever(run: seq<ChannelMap>, specs: set<Spec>, s: Spec, i: nat, j: nat)
    requires i <= j < |run|
    requires forall k | 0 <= k < |run| :: ChannelsValid(run[k])
    requires forall k | 0 <= k < |run| - 1 :: Step(run[k], run[k + 1])
    requires Dead(run[i], specs, s) && ClosedLoop(run[i], specs, s)
    ensures Dead(run[j], specs, s) && ClosedLoop(run[j], specs, s)
    decreases j
  {
    hide Dead, ClosedLoop, Step, ChannelsValid;
    if i < j {
      DeadForever(run, specs, s, i, j - 1);
      assert Step(run[j - 1], run[j - 1 + 1]);
      ClosedStays(run[j - 1], run[j], specs, s);
    }
  }

  // --- Broadcast release ------------------------------------------------------------

  ghost function SlotsUpTo(r: int): set<Acker> {
    set k | 0 <= k < r :: Slot(k)
  }

  lemma {:induction false} SlotsUpToCount(r: nat)
    ensures |SlotsUpTo(r)| == r
  {
    if r > 0 {
      SlotsUpToCount(r - 1);
      assert SlotsUpTo(r) == SlotsUpTo(r - 1) + {Slot(r - 1)};
    }
  }

  /**
   With at most `r` pods of the consumer ever alive at once, `r` acknowledgements
   are those of all cohort slots 0..r-1: none is outstanding and none is foreign.
   */
  lemma EverySlotAcked(c: Channel, o: Operation, r: nat, a: AppendId)
    requires c.spec.IsBroadcast() && SlotsKnown(c, o) && o.nextSlot <= r && a in c.segs && |c.segs[a].acked| >= r
    ensures c.segs[a].acked == SlotsUpTo(r)
    ensures ValidOperation(o) ==> forall p | p in o.pods :: Slot(o.pods[p].slot) in c.segs[a].acked
  {
    SlotsUpToCount(r);
    forall k | k in c.segs[a].acked ensures k in SlotsUpTo(r) { assert k == Slot(k.slot); }
    SubsetOfSameSize(c.segs[a].acked, SlotsUpTo(r));
  }

  lemma SubsetOfSameSize<T>(s: set<T>, t: set<T>)
    requires s <= t && |s| >= |t|
    ensures s == t
  {
    assert t == s + (t - s);
    assert |s + (t - s)| == |s| + |t - s|;
    assert |t - s| == 0;
    forall x | x in t ensures x in s {
      assert x !in s ==> x in t - s;
    }
  }
}
