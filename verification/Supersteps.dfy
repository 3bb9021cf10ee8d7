/**
 The superstep barrier of Synchronous loops: an operation finishes an epoch
 when every replica did, closes that epoch downstream and enters the next one.
 */
module Supersteps {
  import opened Topology
  import opened Graph
  import opened Channels
  import opened Deliveries
  import opened ChannelOps
  import opened Operations
  import opened States
  import opened Termination
  import opened Expiry
  import opened Settlement

  datatype EpochAnswer = Recorded | UnknownPod | InputOpen

  // --- who has finished ---------------------------------------------------------------

  /**
   Every pod of the operation was heard from lately and has finished the epoch, and
   no replica is missing. A pod that never reported has finished epoch zero.
   */
  ghost predicate EveryPodFinished(o: Operation, now: int, e: int) {
    && o.pods != map[] && o.replicas <= |o.pods|
    && forall p | p in o.pods ::
         o.pods[p].lastSeen > now - PodTTL && e <= (if p in o.epochDone then o.epochDone[p] else 0)
  }

  ghost function DonePods(o: Operation, now: int, e: int): set<Pod> {
    set p | p in o.pods && o.pods[p].lastSeen > now - PodTTL && e <= (if p in o.epochDone then o.epochDone[p] else 0)
  }

  /** The pods that have finished the epoch, counted one after the other. */
  method CountDone(o: Operation, now: int, e: int) returns (n: nat)
    ensures n == |DonePods(o, now, e)|
  {
    n := 0;
    var rest := o.pods.Keys;
    ghost var done: set<Pod> := {};
    while rest != {}
      invariant rest <= o.pods.Keys
      invariant done == (set p | p in DonePods(o, now, e) && p !in rest) && n == |done|
      decreases rest
    {
      ghost var some := Witness(rest);
      var p :| p in rest;
      rest := rest - {p};
      var progress := if p in o.epochDone then o.epochDone[p] else 0;
      if o.pods[p].lastSeen > now - PodTTL && progress >= e {
        assert p in DonePods(o, now, e);
        done := done + {p};
        n := n + 1;
      }
    }
    assert done == DonePods(o, now, e);
  }

  /** Counting up to the replicas, but at least up to the live pods, waits for every one of them. */
  lemma QuorumExactly(o: Operation, now: int, e: int, required: int)
    requires required == if o.replicas < |o.pods| then |o.pods| else o.replicas
    ensures required != 0 && |DonePods(o, now, e)| >= required <==> EveryPodFinished(o, now, e)
  {
    var done := DonePods(o, now, e);
    assert done <= o.pods.Keys && |o.pods.Keys| == |o.pods|;
    if |done| >= required {
      SubsetOfSameSize(done, o.pods.Keys);
      forall p | p in o.pods ensures p in done { assert p in o.pods.Keys; }
      SubsetIsNoLarger(done, o.pods.Keys);
    }
    if EveryPodFinished(o, now, e) {
      forall p | p in o.pods ensures p in done {}
      assert done == o.pods.Keys;
    }
  }

  lemma SubsetIsNoLarger<T>(s: set<T>, t: set<T>)
    requires s <= t
    ensures |s| <= |t|
  {
    assert t == s + (t - s);
  }

  /** No input of the operation can still bring work of the epoch. */
  ghost predicate InputsReady(ch: ChannelMap, op: Name, e: int) {
    forall n | n in ch && ch[n].finite && ch[n].spec.to == Some(op) ::
      ch[n].epoch == e && e in ch[n].productionClosed && IsQuiet(ch[n])
  }

  method CheckInputs(ch: ChannelMap, op: Name, e: int) returns (ready: bool)
    requires ChannelsValid(ch)
    ensures ready <==> InputsReady(ch, op, e)
  {
    hide Channels.Valid, IsQuiet;
    ready := true;
    var rest := ch.Keys;
    while rest != {}
      invariant rest <= ch.Keys
      invariant ready <==> forall n | n in ch && n !in rest && ch[n].finite && ch[n].spec.to == Some(op) ::
        ch[n].epoch == e && e in ch[n].productionClosed && IsQuiet(ch[n])
      decreases rest
    {
      var n :| n in rest;
      rest := rest - {n};
      if ch[n].spec.to == Some(op) && ch[n].finite {
        assert Channels.Valid(ch[n]);
        var quiet := Quiet(ch[n]);
        if ch[n].epoch != e || e !in ch[n].productionClosed || !quiet { ready := false; }
      }
    }
  }

  // --- the clocks move ------------------------------------------------------------------

  /** Closes the epoch on an output; at the loop bound the loop itself is closed. */
  ghost function OutputClosed(c: Channel, op: Name, e: int): Channel {
    if ClosesLoop(c, op, e) then Sealed(c)
    else if ClosesEpoch(c, op, e) then c.(productionClosed := c.productionClosed + {e + Lag(c.spec)})
    else c
  }

  /**
   What finishing epoch `e` makes of one channel: an output is closed for the
   epoch, one later on a Synchronous feedback edge, or sealed at the bound of its
   loop; then an input at the epoch enters the next one.
   */
  ghost predicate FinishedAs(c: Channel, d: Channel, op: Name, e: int) {
    var output := c.finite && c.spec.from == Some(op);
    var back := c.spec.feedback.Some? && c.spec.feedback.value.mode == Synchronous;
    var closed := if back then e + 1 else e;
    var mid :=
      if output && back && closed >= c.spec.feedback.value.maxEpochs then Sealed(c)
      else if output then c.(productionClosed := c.productionClosed + {closed})
      else c;
    && Channels.Valid(d)
    && if c.finite && c.spec.to == Some(op) && c.epoch == e
       then Advances(mid, d) && d.held == LaterThan(mid, mid.held, e + 1) && Entered(mid, d, mid.held, e + 1)
       else d == mid
  }

  method CloseOutput(c: Channel, op: Name, e: int) returns (d: Channel)
    requires Channels.Valid(c)
    ensures d == OutputClosed(c, op, e)
  {
    d := c;
    if c.spec.from == Some(op) && c.finite {
      var closed := e;
      if c.spec.feedback.Some? && c.spec.feedback.value.mode == Synchronous {
        closed := e + 1;
        if closed >= c.spec.feedback.value.maxEpochs {
          d := SealUp(c);
          return;
        }
      }
      d := c.(productionClosed := c.productionClosed + {closed});
    }
  }

  lemma OutputClosedKeeps(c: Channel, op: Name, e: int)
    requires Channels.Valid(c)
    ensures Channels.Valid(OutputClosed(c, op, e)) && OutputClosed(c, op, e).spec == c.spec && OutputClosed(c, op, e).finite == c.finite
    ensures OutputClosed(c, op, e).epoch == c.epoch
    ensures !c.spec.IsBroadcast() && IsQuiet(c) ==> IsQuiet(OutputClosed(c, op, e))
  {
    if ClosesLoop(c, op, e) {
      SealedKeeps(c);
      assert QueuedIds(Sealed(c)) == QueuedIds(c);
    } else {
      ClosingKeeps(c, OutputClosed(c, op, e));
    }
  }

  lemma ClosingKeeps(c: Channel, d: Channel)
    requires Channels.Valid(c) && d == c.(productionClosed := d.productionClosed)
    ensures Channels.Valid(d) && (IsQuiet(c) ==> IsQuiet(d))
  {
    CountersKept(c, d);
    forall b | b in d.segs ensures Placed(d, b) && d.segs[b].meta.append == b { assert Placed(c, b); }
    assert QueuedIds(d) == QueuedIds(c);
  }

  lemma FinishedClock(c: Channel, d: Channel, op: Name, e: int)
    requires FinishedAs(c, d, op, e)
    ensures ClockAfterFinish(c, d, op, e)
  {
    hide Channels.Valid;
  }

  lemma FinishedLeases(c: Channel, d: Channel, op: Name, e: int)
    requires FinishedAs(c, d, op, e)
    ensures NoNewSegments(c, d) && LeasesWithin(c, d) && AckersWithin(c, d, {}) && ReadersKept(c, d) && d.spec == c.spec && Channels.Valid(d)
  {
    hide Channels.Valid, FinishedAs, ReadersKept, LeasesWithin, AckersWithin, OutputClosed, Advances, Entered;
    FinishedIs(c, d, op, e);
    ClosedLeases(c, op, e);
    if EntersNext(c, op, e) { AdvancedLeases(c, OutputClosed(c, op, e), d, e + 1); }
  }

  lemma FinishedIs(c: Channel, d: Channel, op: Name, e: int)
    requires FinishedAs(c, d, op, e)
    ensures var mid := OutputClosed(c, op, e);
      && Channels.Valid(d)
      && if EntersNext(c, op, e) then Advances(mid, d) && Entered(mid, d, mid.held, e + 1) else d == mid
  {
    hide Channels.Valid, Advances, Entered, Sealed;
  }

  lemma ClosedLeases(c: Channel, op: Name, e: int)
    ensures var mid := OutputClosed(c, op, e);
      && NoNewSegments(c, mid) && LeasesWithin(c, mid) && AckersWithin(c, mid, {}) && ReadersKept(c, mid) && mid.spec == c.spec
      && mid.log == c.log && mid.cursor == c.cursor
      && forall a | a in c.segs :: mid.segs[a].delivered == c.segs[a].delivered && mid.segs[a].acked == c.segs[a].acked
  {
  }

  lemma AdvancedLeases(c: Channel, mid: Channel, d: Channel, e: int)
    requires Advances(mid, d) && Entered(mid, d, mid.held, e)
    requires NoNewSegments(c, mid) && mid.spec == c.spec && mid.log == c.log && mid.cursor == c.cursor
    requires forall a | a in c.segs :: mid.segs[a].delivered == c.segs[a].delivered && mid.segs[a].acked == c.segs[a].acked
    ensures NoNewSegments(c, d) && LeasesWithin(c, d) && AckersWithin(c, d, {}) && ReadersKept(c, d) && d.spec == c.spec
  {
    EnteredBehind(mid, d, mid.held, e);
  }

  lemma FinishKeeps(ch: ChannelMap, dh: ChannelMap, ops: OperationMap, h: History, op: Name, e: int)
    requires StateOk(ch, ops, h) && InputClosed(ch, op, e)
    requires ch.Keys == dh.Keys && forall n | n in ch :: FinishedAs(ch[n], dh[n], op, e)
    ensures StateOk(dh, ops, h.(finished := Finished(h.finished, op, e))) && NoNewWork(ch, dh)
  {
    hide FinishedAs, ClockAfterFinish, LeasesActive, SlotsKnown, EpochOk, Sticky, Channels.Valid, ValidOperation, AllHonest, AckersWithin;
    forall n | n in ch
      ensures ClockAfterFinish(ch[n], dh[n], op, e) && Channels.Valid(dh[n]) && dh[n].spec.name == n
      ensures Evolves(ch[n], dh[n]) && NoNewSegments(ch[n], dh[n]) && AckersWithin(ch[n], dh[n], {})
      ensures LeasesActive(dh[n], ConsumerOf(ops, dh[n].spec)) && SlotsKnown(dh[n], ConsumerOf(ops, dh[n].spec))
    {
      assert LeasesActive(ch[n], ConsumerOf(ops, ch[n].spec)) && SlotsKnown(ch[n], ConsumerOf(ops, ch[n].spec));
      FinishedClock(ch[n], dh[n], op, e);
      ClockEvolves(ch[n], dh[n], op, e);
      FinishedLeases(ch[n], dh[n], op, e);
      LeasesStay(ch[n], dh[n], ConsumerOf(ops, ch[n].spec));
      SlotsStay(ch[n], dh[n], ConsumerOf(ops, ch[n].spec));
    }
    EpochsAfterFinish(ch, dh, h.finished, op, e);
    HonestKept(ch, dh, h.confirmed);
  }

  lemma ClockEvolves(c: Channel, d: Channel, op: Name, e: int)
    requires ClockAfterFinish(c, d, op, e)
    ensures Evolves(c, d)
  {
  }

  /** The operation's outputs are closed for the epoch, then its inputs enter the next one. */
  method FinishEpoch(ch: ChannelMap, op: Name, e: int) returns (dh: ChannelMap)
    requires ChannelsValid(ch) && InputsReady(ch, op, e)
    ensures dh.Keys == ch.Keys && forall n | n in ch :: FinishedAs(ch[n], dh[n], op, e)
  {
    hide Channels.Valid, FinishedAs, OutputClosed, IsQuiet;
    var eh: ChannelMap := map[];
    var rest := ch.Keys;
    while rest != {}
      invariant rest <= ch.Keys && eh.Keys == ch.Keys - rest
      invariant forall n | n in eh :: eh[n] == OutputClosed(ch[n], op, e)
      decreases rest
    {
      var n :| n in rest;
      rest := rest - {n};
      assert Channels.Valid(ch[n]);
      var c := CloseOutput(ch[n], op, e);
      eh := eh[n := c];
    }
    dh := map[];
    rest := ch.Keys;
    while rest != {}
      invariant rest <= ch.Keys && dh.Keys == ch.Keys - rest
      invariant forall n | n in dh :: FinishedAs(ch[n], dh[n], op, e)
      decreases rest
    {
      var n :| n in rest;
      rest := rest - {n};
      var d := eh[n];
      assert Channels.Valid(ch[n]);
      OutputClosedKeeps(ch[n], op, e);
      if d.spec.to == Some(op) && d.finite && d.epoch == e {
        d := AdvanceEpoch(d);
      }
      ChannelFinished(ch[n], d, op, e);
      dh := dh[n := d];
    }
  }

  lemma ChannelFinished(c: Channel, d: Channel, op: Name, e: int)
    requires var mid := OutputClosed(c, op, e);
      mid.spec == c.spec && mid.finite == c.finite && mid.epoch == c.epoch && Channels.Valid(d)
      && if EntersNext(mid, op, e) then Advances(mid, d) && d.held == LaterThan(mid, mid.held, mid.epoch + 1) && Entered(mid, d, mid.held, mid.epoch + 1) else d == mid
    ensures FinishedAs(c, d, op, e)
  {
    hide Channels.Valid, Advances, Entered;
  }

  // --- a worker reports ------------------------------------------------------------------

  /** The report counts: it is news, and the inputs are ready. */
  ghost predicate Reports(ch: ChannelMap, ops: OperationMap, op: Name, pod: Pod, e: int) {
    pod in OpOf(ops, op).epochDone && e > OpOf(ops, op).epochDone[pod] && InputsReady(ch, op, e)
  }

  ghost function Reported(ops: OperationMap, op: Name, pod: Pod, e: int): OperationMap {
    ops[op := OpOf(ops, op).(epochDone := OpOf(ops, op).epochDone[pod := e])]
  }

  /** A loop bound drops nothing as long as the loop runs over unsealed edges. */
  ghost predicate BoundsDropNothing(ch: ChannelMap, dh: ChannelMap, op: Name, e: int) {
    forall n, b | n in ch && n in dh && ClosesLoop(ch[n], op, e) && ch[n].spec.to == Some(b) && Reaches(OpenEdges(ch), b, op) ::
      DroppedIds(dh[n]) == DroppedIds(ch[n])
  }

  lemma BoundsDrop(ch: ChannelMap, dh: ChannelMap, ops: OperationMap, h: History, op: Name, e: int)
    requires StateOk(ch, ops, h) && InputClosed(ch, op, e)
    requires ch.Keys == dh.Keys && forall n | n in ch :: FinishedAs(ch[n], dh[n], op, e)
    ensures BoundsDropNothing(ch, dh, op, e)
  {
    hide Channels.Valid, EpochOk, Sticky, ValidOperation, LeasesActive, SlotsKnown, FinishedAs;
    forall n, b | n in ch && n in dh && ClosesLoop(ch[n], op, e) && ch[n].spec.to == Some(b) && Reaches(OpenEdges(ch), b, op)
      ensures DroppedIds(dh[n]) == DroppedIds(ch[n])
    {
      BoundDropsNothing(ch, h.finished, n, op, b, e);
      assert FinishedAs(ch[n], dh[n], op, e) && Channels.Valid(ch[n]);
      DropsHeld(ch[n], dh[n], op, e);
    }
  }

  lemma DropsHeld(c: Channel, d: Channel, op: Name, e: int)
    requires Channels.Valid(c) && FinishedAs(c, d, op, e) && ClosesLoop(c, op, e) && c.held == []
    ensures DroppedIds(d) == DroppedIds(c)
  {
    SealedKeeps(c);
    assert d.segs == Sealed(c).segs && d.spec == c.spec;
    assert HeldIds(c) == {};
    assert DroppedIds(d) == DroppedIds(Sealed(c));
  }

  /** The exact effect of an epoch report and its answer. */
  ghost predicate EpochRecorded(ch: ChannelMap, ops: OperationMap, dh: ChannelMap, dps: OperationMap, now: int, op: Name, pod: Pod, e: int, answer: EpochAnswer) {
    && ch.Keys == dh.Keys
    && (answer == UnknownPod <==> pod !in OpOf(ops, op).epochDone)
    && (answer == InputOpen <==> pod in OpOf(ops, op).epochDone && e > OpOf(ops, op).epochDone[pod] && !InputsReady(ch, op, e))
    && dps == (if Reports(ch, ops, op, pod, e) then Reported(ops, op, pod, e) else ops)
    && (if Reports(ch, ops, op, pod, e) && EveryPodFinished(OpOf(dps, op), now, e)
        then (forall n | n in ch :: FinishedAs(ch[n], dh[n], op, e)) && BoundsDropNothing(ch, dh, op, e)
        else dh == ch)
  }

  /**
   Records that a pod finished an epoch. The epoch is finished for the operation
   only with a quorum, and then exactly its own inputs and outputs move.
   */
  method RecordEpochDone(ch: ChannelMap, ops: OperationMap, ghost h: History, now: int, op: Name, pod: Pod, e: int)
    returns (answer: EpochAnswer, dh: ChannelMap, dps: OperationMap, ghost g: History)
    requires StateOk(ch, ops, h)
    ensures StateOk(dh, dps, g) && NoNewWork(ch, dh)
    ensures EpochRecorded(ch, ops, dh, dps, now, op, pod, e, answer)
    ensures g.finished ==
      if Reports(ch, ops, op, pod, e) && EveryPodFinished(OpOf(dps, op), now, e) then Finished(h.finished, op, e) else h.finished
    ensures g.confirmed == h.confirmed
  {
    hide StateOk, FinishedAs, IsQuiet, InputsReady, BoundsDropNothing, NoNewWork, DonePods;
    dh, dps, g := ch, ops, h;
    NothingNew(ch);
    StateIsValid(ch, ops, h);
    var o := OpOf(ops, op);
    if pod !in o.epochDone { return UnknownPod, dh, dps, g; }
    if e <= o.epochDone[pod] { return Recorded, dh, dps, g; }
    var ready := CheckInputs(ch, op, e);
    if !ready { return InputOpen, dh, dps, g; }
    answer := Recorded;
    dps := ops[op := o.(epochDone := o.epochDone[pod := e])];
    ReportKeeps(ch, ops, h, op, pod, e);
    g := WithLive(h, op, |o.pods|);
    var required := if o.replicas < |o.pods| then |o.pods| else o.replicas;
    var done := CountDone(dps[op], now, e);
    QuorumExactly(dps[op], now, e, required);
    if required == 0 || done < required { return; }
    ReadyIsClosed(ch, op, e);
    dh := FinishEpoch(ch, op, e);
    FinishKeeps(ch, dh, dps, g, op, e);
    BoundsDrop(ch, dh, dps, g, op, e);
    g := g.(finished := Finished(g.finished, op, e));
  }

  lemma NothingNew(ch: ChannelMap)
    ensures NoNewWork(ch, ch)
  {
  }

  lemma ReadyIsClosed(ch: ChannelMap, op: Name, e: int)
    requires InputsReady(ch, op, e)
    ensures InputClosed(ch, op, e)
  {
  }

  lemma ReportKeeps(ch: ChannelMap, ops: OperationMap, h: History, op: Name, pod: Pod, e: int)
    requires StateOk(ch, ops, h)
    ensures StateOk(ch, Reported(ops, op, pod, e), WithLive(h, op, |OpOf(ops, op).pods|))
  {
    hide StateOk, ValidOperation;
    OperationIsValid(ch, ops, h, op);
    var d := OpOf(ops, op).(epochDone := OpOf(ops, op).epochDone[pod := e]);
    ProgressKeeps(OpOf(ops, op), d);
    OperationKeeps(ch, ops, h, op, d);
  }

  lemma ProgressKeeps(o: Operation, d: Operation)
    requires ValidOperation(o) && d == o.(epochDone := d.epochDone, replicas := d.replicas)
    ensures ValidOperation(d) && OwnersKept(o, d)
  {
    SlotsSame(o, d);
  }
}
